/**
 * The "Find Care" list: the wait-time status and label of a clinic, and
 * the search-and-category filter over the fixed clinic list.
 */
module Clinics {
  import opened Wrappers

  /** A listed clinic; rating, distance and image are not needed here. */
  datatype Clinic = Clinic(
    id: string,
    name: string,
    doctor: string,
    specialty: string,
    waitTimeMin: int,
    services: seq<string>,
    tags: seq<string>)

  const AllClinics: seq<Clinic> := [
    Clinic("1", "Jay Dental Clinic", "Dr. John Doe", "Dentist", 10, ["dental", "general"], ["Open Now"]),
    Clinic("2", "City Health Center", "Dr. Sarah Smith", "General", 45, ["general"], ["Open Now"]),
    Clinic("3", "Life Care Polyclinic", "Dr. Michael Brown", "Skin", 75, ["dermatology", "general"], ["Closed Soon"]),
    Clinic("4", "Sunrise Heart Clinic", "Dr. Emily Chen", "Cardio", 20, ["cardiology", "general"], ["Open Now"]),
    Clinic("5", "Kids Care Pediatric", "Dr. David Wilson", "Pediatrician", 5, ["pediatrics", "general"], ["Open Now"])
  ]

  /** The filter chips, in display order. */
  const Filters: seq<string> :=
    ["All", "General", "Dental", "Skin", "Cardio", "Pediatric", "Lab Tests", "Orthopedic", "Open Now", "Wait < 30m"]

  // ---------------------------------------------------------------------
  // Wait-time status and label

  datatype Status = Success | Live | Alert

  const FastLimit: int := 15
  const HourLimit: int := 60

  function GetStatus(mins: int): (s: Status)
    ensures s == Success <==> mins < 15
    ensures s == Live <==> 15 <= mins < 60
    ensures s == Alert <==> mins >= 60
  {
    if mins < FastLimit then Success
    else if mins < HourLimit then Live
    else Alert
  }

  function DigitChar(d: nat): (c: char)
    requires d < 10
    ensures '0' <= c <= '9'
  {
    (48 + d) as char
  }

  /** The number a string of decimal digits denotes, most significant digit first. */
  function DecimalValue(s: string): int
    decreases |s|
  {
    if s == [] then 0 else 10 * DecimalValue(s[..|s| - 1]) + (s[|s| - 1] as int - '0' as int)
  }

  /**
   * The decimal digits of `n`, as a template literal prints an integer:
   * they denote `n`, and there is no leading zero.
   */
  function DecimalString(n: nat): (s: string)
    ensures |s| >= 1
    ensures forall i :: 0 <= i < |s| ==> '0' <= s[i] <= '9'
    ensures DecimalValue(s) == n
    ensures s[0] == '0' <==> n == 0
    ensures |s| > 1 ==> s[0] != '0'
    decreases n
  {
    if n < 10 then [DigitChar(n)]
    else
      var prefix := DecimalString(n / 10);
      var s := prefix + [DigitChar(n % 10)];
      assert s[..|s| - 1] == prefix;
      s
  }

  function GetWaitLabel(mins: int): (l: string)
    ensures |l| > 0
    ensures l == "<15m" <==> mins < 15
    ensures l == "1h+" <==> mins >= 60
    ensures l[0] == '~' <==> 15 <= mins < 60
    ensures 15 <= mins < 60 ==> l == "~" + DecimalString(mins) + "m"
    ensures 15 <= mins < 60 ==> l[|l| - 1] == 'm' && DecimalValue(l[1..|l| - 1]) == mins
  {
    if mins < FastLimit then "<15m"
    else if mins < HourLimit then
      var l := "~" + DecimalString(mins) + "m";
      assert l[0] == '~';
      assert l[1..|l| - 1] == DecimalString(mins);
      l
    else "1h+"
  }

  /** The badge's label and its status always name the same tier. */
  lemma WaitLabelAgreesWithStatus(mins: int)
    ensures GetWaitLabel(mins) == "<15m" <==> GetStatus(mins) == Success
    ensures GetWaitLabel(mins)[0] == '~' <==> GetStatus(mins) == Live
    ensures GetWaitLabel(mins) == "1h+" <==> GetStatus(mins) == Alert
  {
  }

  // ---------------------------------------------------------------------
  // Case-insensitive search

  /** `toLowerCase` on one character, for ASCII letters. */
  function LowerChar(c: char): char
  {
    if 'A' <= c <= 'Z' then (c as int + 32) as char else c
  }

  function ToLower(s: string): (r: string)
    ensures |r| == |s|
    ensures forall i :: 0 <= i < |s| ==> r[i] == LowerChar(s[i])
  {
    seq(|s|, i requires 0 <= i < |s| => LowerChar(s[i]))
  }

  predicate IsPrefix(part: string, s: string)
  {
    |part| <= |s| && s[..|part|] == part
  }

  /** `s.includes(part)`: `part` is found at the start of `s` or somewhere further on. */
  predicate Includes(s: string, part: string): (r: bool)
    ensures IsPrefix(part, s) ==> r
    ensures r ==> |part| <= |s|
    decreases |s|
  {
    IsPrefix(part, s) || (|s| > 0 && Includes(s[1..], part))
  }

  /** `Includes` holds exactly when `part` occurs at some position of `s`. */
  lemma {:induction false} IncludesIffOccurs(s: string, part: string)
    ensures Includes(s, part) <==> exists i :: 0 <= i <= |s| && IsPrefix(part, s[i..])
    decreases |s|
  {
    assert s[0..] == s;
    if |s| > 0 {
      IncludesIffOccurs(s[1..], part);
      if Includes(s[1..], part) {
        var i :| 0 <= i <= |s[1..]| && IsPrefix(part, s[1..][i..]);
        assert s[1..][i..] == s[i + 1..];
      }
      if exists i :: 0 <= i <= |s| && IsPrefix(part, s[i..]) {
        var i :| 0 <= i <= |s| && IsPrefix(part, s[i..]);
        if i > 0 {
          assert s[1..][i - 1..] == s[i..];
        } else {
          assert s[0..] == s;
        }
      }
    } else {
      if exists i :: 0 <= i <= |s| && IsPrefix(part, s[i..]) {
        var i :| 0 <= i <= |s| && IsPrefix(part, s[i..]);
        assert s[i..] == s;
      }
    }
  }

  /** The empty query is found in every text. */
  lemma IncludesEmpty(s: string)
    ensures Includes(s, "")
  {
    assert IsPrefix("", s);
  }

  /** `part` occurs in `s` at some position. */
  predicate Occurs(s: string, part: string)
  {
    exists i :: 0 <= i <= |s| && IsPrefix(part, s[i..])
  }

  /** The clinic's name, doctor or specialty contains the query, ignoring case. */
  predicate MatchesSearch(c: Clinic, query: string): (m: bool)
    ensures m <==> (Occurs(ToLower(c.name), ToLower(query))
                 || Occurs(ToLower(c.doctor), ToLower(query))
                 || Occurs(ToLower(c.specialty), ToLower(query)))
    ensures query == "" ==> m
  {
    var q := ToLower(query);
    IncludesIffOccurs(ToLower(c.name), q);
    IncludesIffOccurs(ToLower(c.doctor), q);
    IncludesIffOccurs(ToLower(c.specialty), q);
    assert query == "" ==> Includes(ToLower(c.name), q) by {
      if query == "" {
        assert q == "";
        IncludesEmpty(ToLower(c.name));
      }
    }
    Includes(ToLower(c.name), q) || Includes(ToLower(c.doctor), q) || Includes(ToLower(c.specialty), q)
  }

  // ---------------------------------------------------------------------
  // The filter

  /** The service tag a service chip looks for. */
  function ServiceTag(filter: string): (r: Option<string>)
    ensures r.Some? <==> filter in {"General", "Dental", "Skin", "Cardio", "Pediatric", "Lab Tests", "Orthopedic"}
  {
    if filter == "General" then Some("general")
    else if filter == "Dental" then Some("dental")
    else if filter == "Skin" then Some("dermatology")
    else if filter == "Cardio" then Some("cardiology")
    else if filter == "Pediatric" then Some("pediatrics")
    else if filter == "Lab Tests" then Some("lab")
    else if filter == "Orthopedic" then Some("orthopedics")
    else None
  }

  /** The predicate passed to `filter`: search first, then the active chip. */
  predicate Keep(c: Clinic, query: string, filter: string): (k: bool)
    ensures k ==> MatchesSearch(c, query)
    ensures ServiceTag(filter).Some? ==> (k <==> MatchesSearch(c, query) && ServiceTag(filter).value in c.services)
    ensures filter == "Open Now" ==> (k <==> MatchesSearch(c, query) && "Open Now" in c.tags)
    ensures filter == "Wait < 30m" ==> (k <==> MatchesSearch(c, query) && c.waitTimeMin < 30)
    ensures Unrecognised(filter) ==> (k <==> MatchesSearch(c, query))
  {
    if !MatchesSearch(c, query) then false
    else if filter == "General" then "general" in c.services
    else if filter == "Dental" then "dental" in c.services
    else if filter == "Skin" then "dermatology" in c.services
    else if filter == "Cardio" then "cardiology" in c.services
    else if filter == "Pediatric" then "pediatrics" in c.services
    else if filter == "Lab Tests" then "lab" in c.services
    else if filter == "Orthopedic" then "orthopedics" in c.services
    else if filter == "Open Now" then "Open Now" in c.tags
    else if filter == "Wait < 30m" then c.waitTimeMin < 30
    else true
  }

  /** A chip the filter does not name keeps every search match, as "All" does. */
  predicate Unrecognised(filter: string)
  {
    ServiceTag(filter).None? && filter != "Open Now" && filter != "Wait < 30m"
  }

  /** `a` is `b` with some elements left out, the rest in their order. */
  predicate IsSubsequence(a: seq<Clinic>, b: seq<Clinic>)
    decreases |b|
  {
    if a == [] then true
    else if b == [] then false
    else (a[0] == b[0] && IsSubsequence(a[1..], b[1..])) || IsSubsequence(a, b[1..])
  }

  /** `clinics.filter(...)`. */
  function FilteredClinics(clinics: seq<Clinic>, query: string, filter: string): (r: seq<Clinic>)
    ensures IsSubsequence(r, clinics)
    ensures forall c :: c in r ==> Keep(c, query, filter)
    ensures forall c :: c in clinics && Keep(c, query, filter) ==> c in r
    ensures forall c :: multiset(r)[c] == if Keep(c, query, filter) then multiset(clinics)[c] else 0
    decreases |clinics|
  {
    if clinics == [] then []
    else
      var rest := FilteredClinics(clinics[1..], query, filter);
      assert clinics == [clinics[0]] + clinics[1..];
      if Keep(clinics[0], query, filter) then [clinics[0]] + rest else rest
  }

  /** The list shown for the current query and chip. */
  function FilteredAllClinics(query: string, filter: string): (r: seq<Clinic>)
    ensures IsSubsequence(r, AllClinics)
    ensures forall c :: c in r ==> MatchesSearch(c, query)
  {
    FilteredClinics(AllClinics, query, filter)
  }

  /** The chips map to these service tags. */
  lemma ServiceTags()
    ensures ServiceTag("Skin") == Some("dermatology")
    ensures ServiceTag("Cardio") == Some("cardiology")
    ensures ServiceTag("Pediatric") == Some("pediatrics")
    ensures ServiceTag("Lab Tests") == Some("lab")
    ensures ServiceTag("Orthopedic") == Some("orthopedics")
    ensures ServiceTag("General") == Some("general")
    ensures ServiceTag("Dental") == Some("dental")
    ensures Unrecognised("All")
    ensures forall i :: 1 <= i < |Filters| ==> !Unrecognised(Filters[i])
  {
  }

  /** A service chip keeps exactly the search matches offering its service. */
  lemma ServiceFilterExact(clinics: seq<Clinic>, query: string, filter: string)
    requires ServiceTag(filter).Some?
    ensures forall c :: c in FilteredClinics(clinics, query, filter) <==>
      c in clinics && MatchesSearch(c, query) && ServiceTag(filter).value in c.services
  {
  }

  /** "Wait < 30m" keeps exactly the search matches with a wait under 30 minutes. */
  lemma WaitFilterExact(clinics: seq<Clinic>, query: string)
    ensures forall c :: c in FilteredClinics(clinics, query, "Wait < 30m") <==>
      c in clinics && MatchesSearch(c, query) && c.waitTimeMin < 30
  {
  }

  /** "Open Now" keeps exactly the search matches tagged as open. */
  lemma OpenNowFilterExact(clinics: seq<Clinic>, query: string)
    ensures forall c :: c in FilteredClinics(clinics, query, "Open Now") <==>
      c in clinics && MatchesSearch(c, query) && "Open Now" in c.tags
  {
  }

  /** With an empty query, "All" (or any chip the filter does not name) keeps every clinic, in order. */
  lemma {:induction false} EmptyQueryKeepsAll(clinics: seq<Clinic>, filter: string)
    requires Unrecognised(filter)
    ensures FilteredClinics(clinics, "", filter) == clinics
    decreases |clinics|
  {
    if clinics != [] {
      assert ToLower("") == "";
      IncludesEmpty(ToLower(clinics[0].name));
      EmptyQueryKeepsAll(clinics[1..], filter);
    }
  }
}
