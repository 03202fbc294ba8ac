/** The command-line helpers of the mean-drift tutorial: the names of the statistical tests,
    the lookup of a test by its name and the list of available tests. */
module MeanDriftTutorial {
  /** The test enumeration, with the integer values of its enumerators; any other integer cast
      to it is also a TypeTest. */
  newtype TypeTest = int

  const HinkleyTypeTest: TypeTest := 0
  const EwmaTypeTest: TypeTest := 1
  const MeanAdjustedCusumTypeTest: TypeTest := 2
  const SigmaTypeTest: TypeTest := 3
  const CountTypeTest: TypeTest := 4
  const UnknownTypeTest: TypeTest := CountTypeTest

  const UnknownName := "unknown-type-test"

  /** The display names of the known tests, by enumerator value. */
  const KnownNames: seq<string> := ["hinkley", "ewma", "cusum", "sigma"]

  /** typeTestToString: the name of a known test; every other value, the count included, is
      the unknown test. */
  function TypeTestToString(t: TypeTest): (r: string)
    ensures 0 <= t < CountTypeTest ==> r == KnownNames[t as int]
    ensures !(0 <= t < CountTypeTest) ==> r == UnknownName
  {
    match t
    case 0 => "hinkley"
    case 1 => "ewma"
    case 2 => "cusum"
    case 3 => "sigma"
    case _ => "unknown-type-test"
  }

  /** The first test from `id` on, below the count, whose name is `name`; the unknown test when
      there is none. */
  function FindTypeTest(name: string, id: nat): (r: TypeTest)
    ensures r == UnknownTypeTest || (id <= r as int < CountTypeTest as int && TypeTestToString(r) == name)
    decreases CountTypeTest as int - id
  {
    if id >= CountTypeTest as int then UnknownTypeTest
    else if TypeTestToString(id as TypeTest) == name then id as TypeTest
    else FindTypeTest(name, id + 1)
  }

  /** typeTestFromString: scans the test values below the count in order and stops at the first
      whose name matches. */
  method TypeTestFromString(name: string) returns (result: TypeTest)
    ensures result == FindTypeTest(name, 0)
  {
    result := UnknownTypeTest;
    var count := CountTypeTest as int;
    var id := 0;
    var hasNotFound := true;
    while id < count && hasNotFound
      invariant 0 <= id <= count
      invariant hasNotFound ==> result == UnknownTypeTest && FindTypeTest(name, 0) == FindTypeTest(name, id)
      invariant !hasNotFound ==> result == FindTypeTest(name, 0)
      decreases count - id
    {
      var temp := id as TypeTest;
      if TypeTestToString(temp) == name {
        result := temp;
        hasNotFound := false;
      }
      id := id + 1;
    }
  }

  /** The name of every enumerator, the unknown test included, reads back as that enumerator;
      any other value reads back as the unknown test. */
  lemma NameRoundTrip(t: TypeTest)
    ensures 0 <= t <= CountTypeTest ==> FindTypeTest(TypeTestToString(t), 0) == t
    ensures !(0 <= t <= CountTypeTest) ==> FindTypeTest(TypeTestToString(t), 0) == UnknownTypeTest
  {
    var n := TypeTestToString(t);
    assert FindTypeTest(n, 0) == (if n == "hinkley" then 0 else FindTypeTest(n, 1));
    assert FindTypeTest(n, 1) == (if n == "ewma" then 1 else FindTypeTest(n, 2));
    assert FindTypeTest(n, 2) == (if n == "cusum" then 2 else FindTypeTest(n, 3));
    assert FindTypeTest(n, 3) == (if n == "sigma" then 3 else FindTypeTest(n, 4));
  }

  /** A name that is none of the known names gives the unknown test; a known name gives its
      test. */
  lemma {:induction false} UnknownNameGivesUnknown(name: string)
    ensures name !in KnownNames <==> FindTypeTest(name, 0) == UnknownTypeTest
  {
    if name in KnownNames {
      var i :| 0 <= i < |KnownNames| && KnownNames[i] == name;
      NameRoundTrip(i as TypeTest);
    }
  }

  /** The names of `names` joined by `sep`. */
  function Join(names: seq<string>, sep: string): (r: string)
    ensures |names| > 0 ==> |r| == SumLengths(names) + (|names| - 1) * |sep|
    ensures |names| > 0 ==> r[..|names[0]|] == names[0]
    decreases |names|
  {
    if |names| == 0 then ""
    else if |names| == 1 then names[0]
    else names[0] + sep + Join(names[1..], sep)
  }

  function SumLengths(names: seq<string>): nat
    decreases |names|
  {
    if |names| == 0 then 0 else |names[0]| + SumLengths(names[1..])
  }

  /** Appending a name to a non-empty join adds a separator and the name. */
  lemma {:induction false} JoinSnoc(names: seq<string>, sep: string, last: string)
    requires |names| > 0
    ensures Join(names + [last], sep) == Join(names, sep) + sep + last
    decreases |names|
  {
    if |names| == 1 {
      assert names + [last] == [names[0], last];
      assert [names[0], last][1..] == [last];
    } else {
      assert (names + [last])[1..] == names[1..] + [last];
      JoinSnoc(names[1..], sep, last);
    }
  }

  /** getAvailableTypeTest: the prefix, the name of each test below the last followed by the
      separator, then the last test's name and the suffix. */
  method GetAvailableTypeTest(prefix: string, sep: string, suffix: string) returns (msg: string)
    ensures msg == prefix + Join(KnownNames, sep) + suffix
  {
    msg := prefix;
    var count := CountTypeTest as int;
    var lastId := count - 1;
    for i := 0 to lastId
      invariant msg == prefix + JoinedBefore(KnownNames, sep, i)
    {
      var name := TypeTestToString(i as TypeTest);
      JoinedBeforeStep(KnownNames, sep, i);
      Regroup(prefix, JoinedBefore(KnownNames, sep, i), name + sep, JoinedBefore(KnownNames, sep, i + 1), "");
      msg := msg + (name + sep);
    }
    var name := TypeTestToString(lastId as TypeTest);
    JoinedBeforeLast(KnownNames, sep);
    Regroup(prefix, JoinedBefore(KnownNames, sep, lastId), name, Join(KnownNames, sep), suffix);
    msg := msg + (name + suffix);
  }

  /** The first i names, each followed by the separator. */
  function JoinedBefore(names: seq<string>, sep: string, i: nat): string
    requires i <= |names|
  {
    if i == 0 then "" else Join(names[..i], sep) + sep
  }

  lemma JoinedBeforeStep(names: seq<string>, sep: string, i: nat)
    requires i < |names|
    ensures JoinedBefore(names, sep, i) + (names[i] + sep) == JoinedBefore(names, sep, i + 1)
  {
    if i > 0 {
      assert names[..i + 1] == names[..i] + [names[i]];
      JoinSnoc(names[..i], sep, names[i]);
    }
  }

  lemma JoinedBeforeLast(names: seq<string>, sep: string)
    requires |names| > 0
    ensures JoinedBefore(names, sep, |names| - 1) + names[|names| - 1] == Join(names, sep)
  {
    var n := |names| - 1;
    if n > 0 {
      var init, last := names[..n], names[n];
      assert init + [last] == names;
      JoinSnoc(init, sep, last);
      assert JoinedBefore(names, sep, n) == Join(init, sep) + sep;
    } else {
      assert names == [names[0]];
    }
  }

  /** Appending c and then d to a + b, where b + c = bc, gives a + bc + d. */
  lemma Regroup(a: string, b: string, c: string, bc: string, d: string)
    requires b + c == bc
    ensures (a + b) + (c + d) == a + bc + d
  {
    assert (a + b) + (c + d) == a + (b + c) + d;
  }

  /** The list names the four known tests in enumerator order, one separator between each
      two: with the default arguments "<", " , " and ">" it reads
      "<hinkley , ewma , cusum , sigma>". */
  lemma AvailableListShape(sep: string)
    ensures Join(KnownNames, sep) == "hinkley" + sep + "ewma" + sep + "cusum" + sep + "sigma"
  {
    var rest := KnownNames[1..];
    assert rest == ["ewma", "cusum", "sigma"];
    assert rest[1..] == ["cusum", "sigma"];
    assert rest[1..][1..] == ["sigma"];
    assert Join(rest[1..], sep) == "cusum" + sep + "sigma";
    assert Join(rest, sep) == "ewma" + sep + ("cusum" + sep + "sigma");
  }
}
