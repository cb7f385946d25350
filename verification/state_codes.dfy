/**
 * The `state2abbrev` dictionary of `abbrev` (written out identically in both
 * drafts of the dashboard) and the lookup `Series.replace` performs with it.
 */
module StateCodes {
  import opened Wrappers
  import opened Text

  /** One `'<full name>': '<code>'` item of the dictionary. */
  datatype StateEntry = StateEntry(name: string, code: string)

  /** The dictionary, item by item in source order: 50 states, the District of
      Columbia, Puerto Rico and the Virgin Islands, the last one under the
      source's own spelling 'Virigin Islands'. It is written as four
      consecutive runs so that the verifier can unfold each run on its own. */
  const Table: seq<StateEntry> := RunA + RunB + RunC + RunD

  /** Entries of lines 18-30. */
  const RunA: seq<StateEntry> := [
    StateEntry("Alaska", "AK"),
    StateEntry("Alabama", "AL"),
    StateEntry("Arkansas", "AR"),
    StateEntry("Arizona", "AZ"),
    StateEntry("California", "CA"),
    StateEntry("Colorado", "CO"),
    StateEntry("Connecticut", "CT"),
    StateEntry("District of Columbia", "DC"),
    StateEntry("Delaware", "DE"),
    StateEntry("Florida", "FL"),
    StateEntry("Georgia", "GA"),
    StateEntry("Hawaii", "HI"),
    StateEntry("Iowa", "IA")
  ]

  /** Entries of lines 31-43. */
  const RunB: seq<StateEntry> := [
    StateEntry("Idaho", "ID"),
    StateEntry("Illinois", "IL"),
    StateEntry("Indiana", "IN"),
    StateEntry("Kansas", "KS"),
    StateEntry("Kentucky", "KY"),
    StateEntry("Louisiana", "LA"),
    StateEntry("Massachusetts", "MA"),
    StateEntry("Maryland", "MD"),
    StateEntry("Maine", "ME"),
    StateEntry("Michigan", "MI"),
    StateEntry("Minnesota", "MN"),
    StateEntry("Missouri", "MO"),
    StateEntry("Mississippi", "MS")
  ]

  /** Entries of lines 44-56. */
  const RunC: seq<StateEntry> := [
    StateEntry("Montana", "MT"),
    StateEntry("North Carolina", "NC"),
    StateEntry("North Dakota", "ND"),
    StateEntry("Nebraska", "NE"),
    StateEntry("New Hampshire", "NH"),
    StateEntry("New Jersey", "NJ"),
    StateEntry("New Mexico", "NM"),
    StateEntry("Nevada", "NV"),
    StateEntry("New York", "NY"),
    StateEntry("Ohio", "OH"),
    StateEntry("Oklahoma", "OK"),
    StateEntry("Oregon", "OR"),
    StateEntry("Pennsylvania", "PA")
  ]

  /** Entries of lines 57-70. */
  const RunD: seq<StateEntry> := [
    StateEntry("Rhode Island", "RI"),
    StateEntry("South Carolina", "SC"),
    StateEntry("South Dakota", "SD"),
    StateEntry("Tennessee", "TN"),
    StateEntry("Texas", "TX"),
    StateEntry("Utah", "UT"),
    StateEntry("Virginia", "VA"),
    StateEntry("Vermont", "VT"),
    StateEntry("Washington", "WA"),
    StateEntry("Wisconsin", "WI"),
    StateEntry("West Virginia", "WV"),
    StateEntry("Wyoming", "WY"),
    StateEntry("Puerto Rico", "PR"),
    StateEntry("Virigin Islands", "VI")
  ]

  function Names(t: seq<StateEntry>): (r: seq<string>)
    ensures |r| == |t|
    ensures forall i :: 0 <= i < |t| ==> r[i] == t[i].name
  {
    seq(|t|, i requires 0 <= i < |t| => t[i].name)
  }

  function Codes(t: seq<StateEntry>): (r: seq<string>)
    ensures |r| == |t|
    ensures forall i :: 0 <= i < |t| ==> r[i] == t[i].code
  {
    seq(|t|, i requires 0 <= i < |t| => t[i].code)
  }

  /** No string occurs twice in `s`. */
  ghost predicate Distinct(s: seq<string>) {
    forall i, j :: 0 <= i < j < |s| ==> s[i] != s[j]
  }

  /** No string of `a` occurs in `b`. */
  ghost predicate Apart(a: seq<string>, b: seq<string>) {
    forall i, j :: 0 <= i < |a| && 0 <= j < |b| ==> a[i] != b[j]
  }

  lemma {:induction false} DistinctConcat(a: seq<string>, b: seq<string>)
    requires Distinct(a) && Distinct(b) && Apart(a, b)
    ensures Distinct(a + b)
  {
    forall i, j | 0 <= i < j < |a + b| ensures (a + b)[i] != (a + b)[j] {
      if j >= |a| && i < |a| {
        assert (a + b)[i] == a[i] && (a + b)[j] == b[j - |a|];
      }
    }
  }

  lemma ApartConcat(a: seq<string>, b: seq<string>, c: seq<string>)
    requires Apart(a, c) && Apart(b, c)
    ensures Apart(a + b, c)
  {
    forall i, j | 0 <= i < |a + b| && 0 <= j < |c| ensures (a + b)[i] != c[j] {
      if i >= |a| { assert (a + b)[i] == b[i - |a|]; }
    }
  }

  lemma NamesConcat(a: seq<StateEntry>, b: seq<StateEntry>)
    ensures Names(a + b) == Names(a) + Names(b)
  {
    assert forall i :: 0 <= i < |a + b| ==> Names(a + b)[i] == (Names(a) + Names(b))[i];
  }

  lemma CodesConcat(a: seq<StateEntry>, b: seq<StateEntry>)
    ensures Codes(a + b) == Codes(a) + Codes(b)
  {
    assert forall i :: 0 <= i < |a + b| ==> Codes(a + b)[i] == (Codes(a) + Codes(b))[i];
  }

  lemma RunANamesDistinct()
    ensures Distinct(Names(RunA))
  {
  }

  lemma RunACodesDistinct()
    ensures Distinct(Codes(RunA))
  {
  }

  lemma RunBNamesDistinct()
    ensures Distinct(Names(RunB))
  {
  }

  lemma RunBCodesDistinct()
    ensures Distinct(Codes(RunB))
  {
  }

  lemma RunCNamesDistinct()
    ensures Distinct(Names(RunC))
  {
  }

  lemma RunCCodesDistinct()
    ensures Distinct(Codes(RunC))
  {
  }

  lemma RunDNamesDistinct()
    ensures Distinct(Names(RunD))
  {
  }

  lemma RunDCodesDistinct()
    ensures Distinct(Codes(RunD))
  {
  }

  lemma RunsABNamesApart()
    ensures Apart(Names(RunA), Names(RunB))
  {
  }

  lemma RunsABCodesApart()
    ensures Apart(Codes(RunA), Codes(RunB))
  {
  }

  lemma RunsACNamesApart()
    ensures Apart(Names(RunA), Names(RunC))
  {
  }

  lemma RunsACCodesApart()
    ensures Apart(Codes(RunA), Codes(RunC))
  {
  }

  lemma RunsADNamesApart()
    ensures Apart(Names(RunA), Names(RunD))
  {
  }

  lemma RunsADCodesApart()
    ensures Apart(Codes(RunA), Codes(RunD))
  {
  }

  lemma RunsBCNamesApart()
    ensures Apart(Names(RunB), Names(RunC))
  {
  }

  lemma RunsBCCodesApart()
    ensures Apart(Codes(RunB), Codes(RunC))
  {
  }

  lemma RunsBDNamesApart()
    ensures Apart(Names(RunB), Names(RunD))
  {
  }

  lemma RunsBDCodesApart()
    ensures Apart(Codes(RunB), Codes(RunD))
  {
  }

  lemma RunsCDNamesApart()
    ensures Apart(Names(RunC), Names(RunD))
  {
  }

  lemma RunsCDCodesApart()
    ensures Apart(Codes(RunC), Codes(RunD))
  {
  }

  /** Four pairwise apart runs without repetitions concatenate to a sequence
      without repetitions. */
  lemma FourRunsDistinct(a: seq<string>, b: seq<string>, c: seq<string>, d: seq<string>)
    requires Distinct(a) && Distinct(b) && Distinct(c) && Distinct(d)
    requires Apart(a, b) && Apart(a, c) && Apart(a, d)
    requires Apart(b, c) && Apart(b, d) && Apart(c, d)
    ensures Distinct(a + b + c + d)
  {
    DistinctConcat(a, b);
    ApartConcat(a, b, c);
    DistinctConcat(a + b, c);
    ApartConcat(a, b, d);
    ApartConcat(a + b, c, d);
    DistinctConcat(a + b + c, d);
  }

  /** No full name occurs twice in the dictionary, so each one has exactly one code. */
  lemma TableNamesDistinct()
    ensures Distinct(Names(Table))
  {
    RunANamesDistinct(); RunBNamesDistinct(); RunCNamesDistinct(); RunDNamesDistinct();
    RunsABNamesApart(); RunsACNamesApart(); RunsADNamesApart();
    RunsBCNamesApart(); RunsBDNamesApart(); RunsCDNamesApart();
    FourRunsDistinct(Names(RunA), Names(RunB), Names(RunC), Names(RunD));
    NamesConcat(RunA, RunB);
    NamesConcat(RunA + RunB, RunC);
    NamesConcat(RunA + RunB + RunC, RunD);
  }

  /** No code occurs twice: distinct full names get distinct codes. */
  lemma TableCodesDistinct()
    ensures Distinct(Codes(Table))
  {
    RunACodesDistinct(); RunBCodesDistinct(); RunCCodesDistinct(); RunDCodesDistinct();
    RunsABCodesApart(); RunsACCodesApart(); RunsADCodesApart();
    RunsBCCodesApart(); RunsBDCodesApart(); RunsCDCodesApart();
    FourRunsDistinct(Codes(RunA), Codes(RunB), Codes(RunC), Codes(RunD));
    CodesConcat(RunA, RunB);
    CodesConcat(RunA + RunB, RunC);
    CodesConcat(RunA + RunB + RunC, RunD);
  }

  /** A code of two upper-case letters beside a name of at least four characters. */
  ghost predicate WellShaped(e: StateEntry) {
    |e.code| == 2 && IsUpper(e.code[0]) && IsUpper(e.code[1]) && |e.name| >= 4
  }

  lemma RunAWellShaped()
    ensures forall e :: e in RunA ==> WellShaped(e)
  {
  }

  lemma RunBWellShaped()
    ensures forall e :: e in RunB ==> WellShaped(e)
  {
  }

  lemma RunCWellShaped()
    ensures forall e :: e in RunC ==> WellShaped(e)
  {
  }

  lemma RunDWellShaped()
    ensures forall e :: e in RunD ==> WellShaped(e)
  {
  }

  /** The dictionary has 53 items; every code is two upper-case letters and
      every full name is at least four characters long. */
  lemma TableShape()
    ensures |Table| == 53
    ensures forall i :: 0 <= i < |Table| ==> WellShaped(Table[i])
  {
    RunAWellShaped(); RunBWellShaped(); RunCWellShaped(); RunDWellShaped();
    forall i | 0 <= i < |Table| ensures WellShaped(Table[i]) {
      assert Table[i] in Table;
    }
  }

  /** The code of the first item of `t` whose key is `name`, if any. */
  function Lookup(t: seq<StateEntry>, name: string): Option<string> {
    if t == [] then None
    else if t[0].name == name then Some(t[0].code)
    else Lookup(t[1..], name)
  }

  /** A lookup finds nothing exactly when no item has the key `name`. */
  lemma {:induction false} LookupMissing(t: seq<StateEntry>, name: string)
    ensures Lookup(t, name).None? <==> forall i :: 0 <= i < |t| ==> t[i].name != name
  {
    if t != [] && t[0].name != name {
      LookupMissing(t[1..], name);
      assert forall i :: 1 <= i < |t| ==> t[i] == t[1..][i - 1];
    }
  }

  /** What a lookup finds is the code beside an item whose key is `name`. */
  lemma {:induction false} LookupFound(t: seq<StateEntry>, name: string) returns (i: int)
    requires Lookup(t, name).Some?
    ensures 0 <= i < |t| && t[i].name == name && t[i].code == Lookup(t, name).value
  {
    if t[0].name == name {
      i := 0;
    } else {
      var j := LookupFound(t[1..], name);
      i := j + 1;
    }
  }

  /** With keys that do not repeat, each key finds its own item's code. */
  lemma {:induction false} LookupUnique(t: seq<StateEntry>, i: int)
    requires Distinct(Names(t)) && 0 <= i < |t|
    ensures Lookup(t, t[i].name) == Some(t[i].code)
  {
    if i > 0 {
      assert Names(t)[0] != Names(t)[i];
      assert Distinct(Names(t[1..])) by {
        forall a, b | 0 <= a < b < |t| - 1 ensures Names(t[1..])[a] != Names(t[1..])[b] {
          assert Names(t)[a + 1] != Names(t)[b + 1];
        }
      }
      LookupUnique(t[1..], i - 1);
    }
  }

  /** `state2abbrev.get(name)`: the code of the full name `name`, if it is a key. */
  function Abbreviation(name: string): Option<string> {
    Lookup(Table, name)
  }

  /** Every key of the dictionary maps to the code written beside it. */
  lemma AbbreviationOfName()
    ensures forall i :: 0 <= i < |Table| ==> Abbreviation(Table[i].name) == Some(Table[i].code)
  {
    TableNamesDistinct();
    forall i | 0 <= i < |Table| ensures Abbreviation(Table[i].name) == Some(Table[i].code) {
      LookupUnique(Table, i);
    }
  }

  /** The mapping is injective: two names with the same code are the same name. */
  lemma AbbreviationInjective(a: string, b: string)
    requires Abbreviation(a).Some? && Abbreviation(a) == Abbreviation(b)
    ensures a == b
  {
    var i := LookupFound(Table, a);
    var j := LookupFound(Table, b);
    TableCodesDistinct();
    assert Codes(Table)[i] == Codes(Table)[j];
  }

  /** Whatever a lookup finds is a code of two upper-case letters, and that
      code is not itself a key: a second lookup finds nothing. */
  lemma AbbreviationIsCode(name: string)
    requires Abbreviation(name).Some?
    ensures |Abbreviation(name).value| == 2
    ensures IsUpper(Abbreviation(name).value[0]) && IsUpper(Abbreviation(name).value[1])
    ensures Abbreviation(Abbreviation(name).value) == None
    ensures |name| >= 4
  {
    var i := LookupFound(Table, name);
    var code := Table[i].code;
    TableShape();
    assert WellShaped(Table[i]);
    LookupMissing(Table, code);
  }
}
