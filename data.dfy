/**
 * The mock directory's two lookups: the first doctor of a clinic, and the
 * three-tier badge for a clinic's queue length.
 */
module Data {
  import opened Wrappers

  /** A doctor of the directory; ratings, fees and slots are not needed here. */
  datatype Doctor = Doctor(id: string, name: string, specialty: string, clinicId: string)

  const Doctors: seq<Doctor> := [
    Doctor("1", "Dr. Aditi Kulkarni", "Dentist", "1"),
    Doctor("2", "Dr. Rahul Mehta", "General Physician", "2"),
    Doctor("3", "Dr. Priya Sharma", "Dermatologist", "3"),
    Doctor("4", "Dr. Suresh Iyer", "Ophthalmologist", "4"),
    Doctor("5", "Dr. Amit Verma", "Pathologist", "5"),
    Doctor("6", "Dr. Nikhil Joshi", "Dentist", "6")
  ]

  /** The scan of `find`: the position of the first doctor of the clinic, or `|ds|` when there is none. */
  function FirstIndexOf(ds: seq<Doctor>, clinicId: string): (k: nat)
    ensures k <= |ds|
    ensures forall j :: 0 <= j < k ==> ds[j].clinicId != clinicId
    ensures k < |ds| ==> ds[k].clinicId == clinicId
    decreases |ds|
  {
    if ds == [] then 0
    else if ds[0].clinicId == clinicId then 0
    else 1 + FirstIndexOf(ds[1..], clinicId)
  }

  /** `getClinicDoctor`: the first doctor whose clinic is `clinicId`, if any. */
  function GetClinicDoctor(clinicId: string): (r: Option<Doctor>)
    ensures r.None? <==> forall d :: d in Doctors ==> d.clinicId != clinicId
    ensures r.Some? ==>
      && r.value.clinicId == clinicId
      && exists k :: 0 <= k < |Doctors| && Doctors[k] == r.value
                     && forall j :: 0 <= j < k ==> Doctors[j].clinicId != clinicId
  {
    var k := FirstIndexOf(Doctors, clinicId);
    if k < |Doctors| then Some(Doctors[k]) else None
  }

  /** When no earlier doctor shares the clinic of `ds[k]`, the scan stops at `k`. */
  lemma FirstIndexOfUnique(ds: seq<Doctor>, k: nat)
    requires k < |ds|
    requires forall j :: 0 <= j < k ==> ds[j].clinicId != ds[k].clinicId
    ensures FirstIndexOf(ds, ds[k].clinicId) == k
  {
  }

  /** Each doctor of the directory is the one found for its own clinic: no two doctors share a clinic. */
  lemma ListedDoctor(k: nat)
    requires k < |Doctors|
    ensures GetClinicDoctor(Doctors[k].clinicId) == Some(Doctors[k])
  {
    assert forall j :: 0 <= j < |Doctors| ==> Doctors[j].clinicId == [('1' as int + j) as char];
    FirstIndexOfUnique(Doctors, k);
  }

  /** Clinic "3" gets Dr. Priya Sharma; clinic "7" gets no doctor. */
  lemma ClinicDoctors()
    ensures GetClinicDoctor("3") == Some(Doctor("3", "Dr. Priya Sharma", "Dermatologist", "3"))
    ensures GetClinicDoctor("7").None?
  {
    ListedDoctor(2);
    assert forall d :: d in Doctors ==> d.clinicId != "7";
  }

  /** The badge record; `text` is the source's `label`, a reserved word here. */
  datatype Badge = Badge(text: string, color: string, bgColor: string)

  /** `getQueueBadge`. */
  function GetQueueBadge(queueLength: int): (b: Badge)
    ensures b.text == "Fast Moving" <==> queueLength < 5
    ensures b.text == "High Wait" <==> queueLength > 10
    ensures b.text == "Moderate" <==> 5 <= queueLength <= 10
  {
    if queueLength < 5 then Badge("Fast Moving", "#10B981", "#ECFDF5")
    else if queueLength > 10 then Badge("High Wait", "#EF4444", "#FEF2F2")
    else Badge("Moderate", "#F59E0B", "#FFFBEB")
  }

  /** Fast, moderate, high, in that order. */
  function Tier(b: Badge): nat
  {
    if b.text == "Fast Moving" then 0 else if b.text == "Moderate" then 1 else 2
  }

  /** A longer queue never gets a faster badge. */
  lemma BadgeMonotone(m: int, n: int)
    requires m <= n
    ensures Tier(GetQueueBadge(m)) <= Tier(GetQueueBadge(n))
  {
  }

  /** The boundary lengths 5 and 10 are moderate; 3 is fast and 12 high. */
  lemma BadgeBoundaries()
    ensures GetQueueBadge(3).text == "Fast Moving"
    ensures GetQueueBadge(5).text == "Moderate" && GetQueueBadge(7).text == "Moderate"
    ensures GetQueueBadge(10).text == "Moderate"
    ensures GetQueueBadge(12).text == "High Wait"
  {
  }
}
