/** cosmos_curate/client/slurm_cli/slurm.py: mount specifications and the comma-separated lists of them. */
module Mounts {
  import opened Wrappers

  // ----- str.split and str.join -----

  /** str.split on one character: always at least one part. */
  function Split(s: string, sep: char): (parts: seq<string>)
    ensures parts != []
  {
    if s == "" then [""]
    else
      var rest := Split(s[1..], sep);
      if s[0] == sep then [""] + rest else [[s[0]] + rest[0]] + rest[1..]
  }

  function Join(parts: seq<string>, sep: char): string {
    if parts == [] then "" else if |parts| == 1 then parts[0] else parts[0] + [sep] + Join(parts[1..], sep)
  }

  function Occurrences(s: string, c: char): nat {
    if s == "" then 0 else (if s[0] == c then 1 else 0) + Occurrences(s[1..], c)
  }

  function TotalOccurrences(parts: seq<string>, c: char): nat {
    if parts == [] then 0 else Occurrences(parts[0], c) + TotalOccurrences(parts[1..], c)
  }

  lemma {:induction false} OccurrencesZero(s: string, c: char)
    ensures Occurrences(s, c) == 0 <==> c !in s
  {
    if s != "" {
      OccurrencesZero(s[1..], c);
      assert s == [s[0]] + s[1..];
    }
  }

  lemma {:induction false} OccurrencesConcat(a: string, b: string, c: char)
    ensures Occurrences(a + b, c) == Occurrences(a, c) + Occurrences(b, c)
  {
    if a == "" {
      assert a + b == b;
    } else {
      OccurrencesConcat(a[1..], b, c);
      assert (a + b)[1..] == a[1..] + b;
    }
  }

  /** The parts are one more than the separators. */
  lemma {:induction false} SplitCount(s: string, sep: char)
    ensures |Split(s, sep)| == Occurrences(s, sep) + 1
  {
    if s != "" {
      SplitCount(s[1..], sep);
    }
  }

  lemma {:induction false} JoinCount(parts: seq<string>, sep: char)
    requires parts != []
    ensures Occurrences(Join(parts, sep), sep) == |parts| - 1 + TotalOccurrences(parts, sep)
  {
    if |parts| == 1 {
      assert TotalOccurrences(parts[1..], sep) == 0;
    } else {
      JoinCount(parts[1..], sep);
      OccurrencesConcat(parts[0] + [sep], Join(parts[1..], sep), sep);
      OccurrencesConcat(parts[0], [sep], sep);
      assert Occurrences([sep], sep) == 1 + Occurrences([sep][1..], sep);
    }
  }

  lemma {:induction false} JoinSplit(s: string, sep: char)
    ensures Join(Split(s, sep), sep) == s
  {
    if s != "" {
      var rest := Split(s[1..], sep);
      JoinSplit(s[1..], sep);
      if s[0] == sep {
        assert ([""] + rest)[1..] == rest;
      } else {
        assert ([[s[0]] + rest[0]] + rest[1..])[1..] == rest[1..];
      }
    }
  }

  /** A part without separators, then a separator, is split off as it is. */
  lemma {:induction false} SplitFirst(part: string, rest: string, sep: char)
    requires sep !in part
    ensures Split(part, sep) == [part]
    ensures Split(part + [sep] + rest, sep) == [part] + Split(rest, sep)
  {
    var whole := part + [sep] + rest;
    if part == "" {
      assert whole[1..] == rest;
    } else {
      SplitFirst(part[1..], rest, sep);
      assert whole[1..] == part[1..] + [sep] + rest;
      assert [part[0]] + part[1..] == part;
    }
  }

  lemma {:induction false} SplitJoin(parts: seq<string>, sep: char)
    requires parts != [] && forall p :: p in parts ==> sep !in p
    ensures Split(Join(parts, sep), sep) == parts
  {
    if |parts| == 1 {
      SplitFirst(parts[0], "", sep);
    } else {
      SplitJoin(parts[1..], sep);
      SplitFirst(parts[0], Join(parts[1..], sep), sep);
    }
  }

  /** Joining and splitting returns the parts if and only if there is a part and none contains the separator. */
  lemma SplitJoinIff(parts: seq<string>, sep: char)
    ensures Split(Join(parts, sep), sep) == parts <==> parts != [] && forall p :: p in parts ==> sep !in p
  {
    if parts != [] {
      SplitCount(Join(parts, sep), sep);
      JoinCount(parts, sep);
      TotalZero(parts, sep);
      if forall p :: p in parts ==> sep !in p {
        SplitJoin(parts, sep);
      }
    }
  }

  lemma {:induction false} TotalZero(parts: seq<string>, c: char)
    ensures TotalOccurrences(parts, c) == 0 <==> forall p :: p in parts ==> c !in p
  {
    if parts != [] {
      TotalZero(parts[1..], c);
      OccurrencesZero(parts[0], c);
      assert parts == [parts[0]] + parts[1..];
    }
  }

  // ----- mounts -----

  datatype MountSpec = MountSpec(source: string, dest: string, mode: string) {
    /** What the field validator enforces. */
    predicate Valid() {
      mode == "rw" || mode == "ro"
    }
  }

  /** MountSpec.from_str */
  function FromStr(mount: string): (r: Result<MountSpec>)
    ensures r.Success? ==> r.value.Valid()
    ensures r.Failure? ==> r.error == ValueError
  {
    var parts := Split(mount, ':');
    if |parts| < 2 || |parts| > 3 then Failure(ValueError)
    else
      var spec := MountSpec(parts[0], parts[1], if |parts| == 2 then "rw" else parts[2]);
      if spec.Valid() then Success(spec) else Failure(ValueError)
  }

  /** MountSpec.__str__ */
  function ToStr(m: MountSpec): string {
    m.source + ":" + m.dest + ":" + m.mode
  }

  lemma ToStrIsJoin(m: MountSpec)
    ensures ToStr(m) == Join([m.source, m.dest, m.mode], ':')
  {
    assert [m.source, m.dest, m.mode][1..] == [m.dest, m.mode];
    assert [m.dest, m.mode][1..] == [m.mode];
    assert Join([m.mode], ':') == m.mode;
    assert Join([m.dest, m.mode], ':') == m.dest + [':'] + m.mode;
    assert ToStr(m) == m.source + [':'] + (m.dest + [':'] + m.mode);
  }

  /** A mount reads back from its printed form if and only if its paths contain no colon. */
  lemma MountRoundTrip(m: MountSpec)
    requires m.Valid()
    ensures FromStr(ToStr(m)) == Success(m) <==> ':' !in m.source && ':' !in m.dest
  {
    var parts := [m.source, m.dest, m.mode];
    ToStrIsJoin(m);
    SplitJoinIff(parts, ':');
    SplitCount(ToStr(m), ':');
    JoinCount(parts, ':');
    TotalZero(parts, ':');
    assert m.source in parts && m.dest in parts && m.mode in parts;
  }

  /**
   Printing a parsed mount gives the string back, with a missing mode filled in; parsing that changes
   nothing more.
   */
  lemma PrintAfterParse(s: string)
    requires FromStr(s).Success?
    ensures var m := FromStr(s).value;
            && (ToStr(m) == s || ToStr(m) == s + ":rw")
            && FromStr(ToStr(m)) == Success(m)
  {
    var parts, m := Split(s, ':'), FromStr(s).value;
    JoinSplit(s, ':');
    SplitJoinIff(parts, ':');
    assert parts[0] in parts && parts[1] in parts;
    assert ':' !in m.source && ':' !in m.dest;
    MountRoundTrip(m);
    if |parts| == 3 {
      ToStrIsJoin(m);
      assert parts == [m.source, m.dest, m.mode];
    } else {
      assert parts == [m.source, m.dest];
      assert parts[1..] == [m.dest];
      assert s == m.source + [':'] + m.dest;
    }
  }

  /** What a string of two or three parts without colons parses to. */
  lemma PartsParse(source: string, dest: string, mode: string)
    requires ':' !in source && ':' !in dest && ':' !in mode
    ensures FromStr(source + ":" + dest) == Success(MountSpec(source, dest, "rw"))
    ensures FromStr(source + ":" + dest + ":" + mode) ==
            if mode == "rw" || mode == "ro" then Success(MountSpec(source, dest, mode)) else Failure(ValueError)
  {
    var two, three := [source, dest], [source, dest, mode];
    assert Join(two[1..], ':') == dest;
    assert Join(two, ':') == source + ":" + dest;
    SplitJoinIff(two, ':');
    ToStrIsJoin(MountSpec(source, dest, mode));
    assert ToStr(MountSpec(source, dest, mode)) == source + ":" + dest + ":" + mode;
    SplitJoinIff(three, ':');
  }

  /** A string parses to a mount if and only if it is source:dest, with the mode rw understood, or source:dest:mode. */
  lemma ParsesIff(s: string, m: MountSpec)
    ensures FromStr(s) == Success(m) <==>
            && m.Valid() && ':' !in m.source && ':' !in m.dest
            && (s == ToStr(m) || (s == m.source + ":" + m.dest && m.mode == "rw"))
  {
    if FromStr(s) == Success(m) {
      PrintAfterParse(s);
      MountRoundTrip(m);
      var parts := Split(s, ':');
      JoinSplit(s, ':');
      if |parts| == 3 {
        ToStrIsJoin(m);
        assert parts == [m.source, m.dest, m.mode];
      } else {
        assert parts == [m.source, m.dest] && parts[1..] == [m.dest];
      }
    }
    if m.Valid() && ':' !in m.source && ':' !in m.dest {
      PartsParse(m.source, m.dest, m.mode);
    }
  }

  // ----- mount lists -----

  function Prints(mounts: seq<MountSpec>): (r: seq<string>)
    ensures |r| == |mounts|
  {
    seq(|mounts|, i requires 0 <= i < |mounts| => ToStr(mounts[i]))
  }

  /** The list in the batch script: printed mounts joined by commas. */
  function Render(mounts: seq<MountSpec>): string {
    Join(Prints(mounts), ',')
  }

  /** Each string in turn; the first failure is raised. */
  function ParseAll(strings: seq<string>): (r: Result<seq<MountSpec>>)
    ensures r.Success? ==> |r.value| == |strings|
    ensures r.Success? <==> forall i :: 0 <= i < |strings| ==> FromStr(strings[i]).Success?
    ensures r.Success? ==> forall i :: 0 <= i < |strings| ==> FromStr(strings[i]) == Success(r.value[i])
  {
    if strings == [] then Success([])
    else
      var first :- FromStr(strings[0]);
      var rest :- ParseAll(strings[1..]);
      Success([first] + rest)
  }

  /** The list from the command line: split at commas, then parsed. */
  function Parse(containerMounts: string): Result<seq<MountSpec>> {
    ParseAll(Split(containerMounts, ','))
  }

  /** A joined list of strings without commas is parsed string by string, whatever their form. */
  lemma ParseIsElementwise(strings: seq<string>)
    requires strings != [] && forall s :: s in strings ==> ',' !in s
    ensures Parse(Join(strings, ',')) == ParseAll(strings)
  {
    SplitJoinIff(strings, ',');
  }

  /** A mount without a mode in a list comes back with the mode rw. */
  lemma MissingModeInList(source: string, dest: string, rest: seq<string>)
    requires ':' !in source && ':' !in dest && ',' !in source && ',' !in dest
    requires forall s :: s in rest ==> ',' !in s
    requires ParseAll(rest).Success?
    ensures Parse(Join([source + ":" + dest] + rest, ',')) ==
            Success([MountSpec(source, dest, "rw")] + ParseAll(rest).value)
  {
    var first := source + ":" + dest;
    var strings := [first] + rest;
    ParseIsElementwise(strings);
    PartsParse(source, dest, "rw");
    assert strings[0] == first && strings[1..] == rest;
    hide Join;
    hide FromStr;
    hide Parse;
  }

  /** Mounts whose paths contain no colon and no comma. */
  predicate Plain(m: MountSpec) {
    ':' !in m.source && ':' !in m.dest && ',' !in m.source && ',' !in m.dest
  }

  lemma CommaInPrint(m: MountSpec)
    requires m.Valid()
    ensures ',' in ToStr(m) <==> ',' in m.source || ',' in m.dest
  {
  }

  /**
   One mount in a list: its print has a comma exactly when a path has, and reads back exactly when no
   path has a colon.
   */
  lemma PrintFacts(mounts: seq<MountSpec>, i: nat)
    requires i < |mounts| && mounts[i].Valid()
    ensures ',' in Prints(mounts)[i] <==> ',' in mounts[i].source || ',' in mounts[i].dest
    ensures FromStr(Prints(mounts)[i]) == Success(mounts[i]) <==> ':' !in mounts[i].source && ':' !in mounts[i].dest
  {
    CommaInPrint(mounts[i]);
    MountRoundTrip(mounts[i]);
  }

  lemma PlainListReadsBack(mounts: seq<MountSpec>)
    requires mounts != [] && forall m :: m in mounts ==> m.Valid() && Plain(m)
    ensures Parse(Render(mounts)) == Success(mounts)
  {
    hide FromStr;
    var prints := Prints(mounts);
    forall i | 0 <= i < |mounts|
      ensures ',' !in prints[i] && FromStr(prints[i]) == Success(mounts[i])
    {
      assert mounts[i] in mounts;
      PrintFacts(mounts, i);
    }
    hide Prints;
    SplitJoin(prints, ',');
    hide Split;
    hide Join;
    var r := ParseAll(prints);
    assert r.Success?;
    forall i | 0 <= i < |mounts|
      ensures r.value[i] == mounts[i]
    {
      assert FromStr(prints[i]) == Success(r.value[i]);
    }
    assert r.value == mounts;
    assert Split(Render(mounts), ',') == prints;
  }

  lemma ReadBackListIsPlain(mounts: seq<MountSpec>)
    requires forall m :: m in mounts ==> m.Valid()
    requires Parse(Render(mounts)) == Success(mounts)
    ensures mounts != [] && forall m :: m in mounts ==> Plain(m)
  {
    hide FromStr;
    var prints := Prints(mounts);
    SplitCount(Render(mounts), ',');
    JoinCount(prints, ',');
    TotalZero(prints, ',');
    SplitJoinIff(prints, ',');
    assert Split(Render(mounts), ',') == prints;
    hide Split;
    hide Join;
    forall i | 0 <= i < |mounts|
      ensures Plain(mounts[i])
    {
      assert mounts[i] in mounts && prints[i] in prints;
      PrintFacts(mounts, i);
    }
  }

  /** A list of mounts reads back from its rendered form if and only if it is not empty and all its mounts are plain. */
  lemma MountListRoundTrip(mounts: seq<MountSpec>)
    requires forall m :: m in mounts ==> m.Valid()
    ensures Parse(Render(mounts)) == Success(mounts) <==> mounts != [] && forall m :: m in mounts ==> Plain(m)
  {
    if mounts != [] && forall m :: m in mounts ==> Plain(m) {
      PlainListReadsBack(mounts);
    }
    if Parse(Render(mounts)) == Success(mounts) {
      ReadBackListIsPlain(mounts);
    }
  }
}
