/**
 * The version formatter and the release-note builder: the next tag computed
 * from the previous one, and the text published for a release.
 */
module Format {
  import opened Wrappers
  import opened Strings
  import opened Strconv

  /** The tag proposed when the repository has no tag yet. */
  const FirstVersion: string := "v1.0.0"

  /** A date in the `YYYYMMDD` layout (Go's "20060102"). */
  predicate IsDateStamp(s: string) {
    |s| == 8 && AllDigits(s)
  }

  /** Go's `n + 1` on a 64-bit `int`: wraps around from the largest value to the smallest. */
  function Increment(n: int): (r: int)
    requires InIntRange(n)
    ensures InIntRange(r)
    ensures (r - n - 1) % 0x1_0000_0000_0000_0000 == 0
    ensures n < MaxInt ==> r == n + 1
  {
    if n == MaxInt then MinInt else n + 1
  }

  /** The three groups of `(.*)(\d{8})(\.)(.+)` that the formatter uses. */
  datatype DatedTag = DatedTag(prefix: string, date: string, minor: string)

  /** The shape a match of the dated pattern has in a tag with at most one dot. */
  predicate IsDatedShape(prefix: string, date: string, minor: string) {
    '.' !in prefix && IsDateStamp(date) && minor != [] && '.' !in minor
  }

  /**
   * The match of `(.*)(\d{8})(\.)(.+)` against a tag with at most one dot and
   * no line break: the only dot, the eight digits just before it, and at least
   * one character after it.
   */
  function MatchDated(tag: string): (m: Option<DatedTag>)
    requires |Split(tag, '.')| <= 2
    requires '\n' !in tag
    ensures m.Some? ==> IsDatedShape(m.value.prefix, m.value.date, m.value.minor)
    ensures m.Some? ==> tag == m.value.prefix + m.value.date + "." + m.value.minor
  {
    var segs := Split(tag, '.');
    if |segs| != 2 then None
    else
      var head, minor := segs[0], segs[1];
      if |head| >= 8 && AllDigits(head[|head| - 8..]) && minor != [] then
        JoinSplit(tag, '.');
        assert head == head[..|head| - 8] + head[|head| - 8..];
        Some(DatedTag(head[..|head| - 8], head[|head| - 8..], minor))
      else None
  }

  /**
   * `GetNextVersion(tag)`; `today` is the current date, which the source reads
   * from the system clock.
   */
  function GetNextVersion(tag: string, today: string): (r: Result<string, NumError>)
    requires IsDateStamp(today)
    requires '\n' !in tag
    ensures tag == "" ==> r == Success(FirstVersion)
    ensures r.Failure? ==> tag != ""
    ensures r.Failure? && |Split(tag, '.')| > 2 ==>
              Atoi(Split(tag, '.')[|Split(tag, '.')| - 1]) == Failure(r.error)
    ensures r.Failure? && |Split(tag, '.')| <= 2 ==>
              && MatchDated(tag).Some? && MatchDated(tag).value.date == today
              && Atoi(MatchDated(tag).value.minor) == Failure(r.error)
  {
    if tag == "" then Success(FirstVersion)
    else
      var segs := Split(tag, '.');
      if |segs| > 2 then
        match Atoi(segs[|segs| - 1])
        case Failure(e) => Failure(e)
        case Success(patch) => Success(Join(segs[|segs| - 1 := Itoa(Increment(patch))], '.'))
      else
        match MatchDated(tag)
        case None => Success(today + ".1")
        case Some(m) =>
          if m.date == today then
            match Atoi(m.minor)
            case Failure(e) => Failure(e)
            case Success(minor) => Success(m.prefix + today + "." + Itoa(Increment(minor)))
          else Success(m.prefix + today + "." + "1")
  }

  /** A dot-free piece, a dot and another dot-free piece split into exactly those two pieces. */
  lemma SplitPair(a: string, b: string)
    requires '.' !in a && '.' !in b
    ensures Split(a + "." + b, '.') == [a, b]
  {
    SplitHead(a, b, '.');
    SplitNoSeparator(b, '.');
  }

  /** Every tag of the dated shape is matched, with exactly its own prefix, date and minor. */
  lemma MatchDatedComplete(prefix: string, date: string, minor: string)
    requires IsDatedShape(prefix, date, minor)
    requires '\n' !in prefix && '\n' !in minor
    ensures |Split(prefix + date + "." + minor, '.')| == 2
    ensures MatchDated(prefix + date + "." + minor) == Some(DatedTag(prefix, date, minor))
  {
    var head := prefix + date;
    assert '.' !in head by {
      forall i | 0 <= i < |head| ensures head[i] != '.' {
        if i >= |prefix| { assert IsDigit(date[i - |prefix|]); }
      }
    }
    assert prefix + date + "." + minor == head + "." + minor;
    SplitPair(head, minor);
    assert head[|head| - 8..] == date && head[..|head| - 8] == prefix;
  }

  /**
   * Semantic branch on a tag given by its segments: with more than two
   * segments and an integer last segment, only the last segment changes, to
   * the decimal of its value plus one.
   */
  lemma SemanticBump(parts: seq<string>, today: string)
    requires IsDateStamp(today)
    requires |parts| > 2
    requires forall i :: 0 <= i < |parts| ==> '.' !in parts[i] && '\n' !in parts[i]
    requires Atoi(parts[|parts| - 1]).Success?
    ensures '\n' !in Join(parts, '.')
    ensures GetNextVersion(Join(parts, '.'), today)
            == Success(Join(parts[|parts| - 1 := Itoa(Increment(Atoi(parts[|parts| - 1]).value))], '.'))
  {
    SplitJoin(parts, '.');
    JoinAvoids(parts, '.', '\n');
  }

  /**
   * Semantic branch on any tag: the next tag has the same number of segments,
   * every segment but the last unchanged, and the last one replaced by the
   * decimal of its value plus one.
   */
  lemma SemanticNext(tag: string, today: string)
    requires IsDateStamp(today)
    requires '\n' !in tag
    requires |Split(tag, '.')| > 2
    requires Atoi(Split(tag, '.')[|Split(tag, '.')| - 1]).Success?
    ensures var segs := Split(tag, '.');
            var n := |segs|;
            var r := GetNextVersion(tag, today);
            && r.Success?
            && Split(r.value, '.') == segs[n - 1 := Itoa(Increment(Atoi(segs[n - 1]).value))]
            && |Split(r.value, '.')| == n
            && (forall i :: 0 <= i < n - 1 ==> Split(r.value, '.')[i] == segs[i])
  {
    var segs := Split(tag, '.');
    var n := |segs|;
    var next := segs[n - 1 := Itoa(Increment(Atoi(segs[n - 1]).value))];
    ItoaAvoids(Increment(Atoi(segs[n - 1]).value), '.');
    SplitJoin(next, '.');
  }

  /** Semantic branch on any tag whose last segment is not an integer: exactly that segment's Atoi error. */
  lemma SemanticBadPatch(tag: string, today: string)
    requires IsDateStamp(today)
    requires '\n' !in tag
    requires |Split(tag, '.')| > 2
    requires Atoi(Split(tag, '.')[|Split(tag, '.')| - 1]).Failure?
    ensures GetNextVersion(tag, today) == Failure(Atoi(Split(tag, '.')[|Split(tag, '.')| - 1]).error)
  {
  }

  /** Dated branch, same day: the prefix and date are kept and the minor counter goes up by one. */
  lemma DatedSameDay(prefix: string, minor: string, today: string)
    requires IsDatedShape(prefix, today, minor)
    requires '\n' !in prefix && '\n' !in minor
    requires Atoi(minor).Success?
    ensures GetNextVersion(prefix + today + "." + minor, today)
            == Success(prefix + today + "." + Itoa(Increment(Atoi(minor).value)))
  {
    MatchDatedComplete(prefix, today, minor);
  }

  /** Dated branch, same day, with a minor that is not an integer: the parse error is returned. */
  lemma DatedSameDayBadMinor(prefix: string, minor: string, today: string)
    requires IsDatedShape(prefix, today, minor)
    requires '\n' !in prefix && '\n' !in minor
    requires Atoi(minor).Failure?
    ensures GetNextVersion(prefix + today + "." + minor, today) == Failure(Atoi(minor).error)
  {
    MatchDatedComplete(prefix, today, minor);
  }

  /** Dated branch, stale date: the prefix is kept, the date becomes today and the minor restarts at 1. */
  lemma DatedStale(prefix: string, date: string, minor: string, today: string)
    requires IsDatedShape(prefix, date, minor) && IsDateStamp(today)
    requires '\n' !in prefix && '\n' !in minor
    requires date != today
    ensures GetNextVersion(prefix + date + "." + minor, today) == Success(prefix + today + ".1")
  {
    MatchDatedComplete(prefix, date, minor);
    assert prefix + today + "." + "1" == prefix + today + ".1";
  }

  /** A non-empty tag without any dot is not dated: the result is today's first release. */
  lemma UndatedNoDot(tag: string, today: string)
    requires IsDateStamp(today)
    requires tag != "" && '.' !in tag && '\n' !in tag
    ensures GetNextVersion(tag, today) == Success(today + ".1")
  {
    SplitNoSeparator(tag, '.');
  }

  /**
   * A tag with one dot whose head does not end in eight digits, or whose tail
   * is empty, is not dated: the result is today's first release and any
   * prefix is dropped.
   */
  lemma UndatedOneDot(head: string, tail: string, today: string)
    requires IsDateStamp(today)
    requires '.' !in head && '.' !in tail && '\n' !in head && '\n' !in tail
    requires !(|head| >= 8 && AllDigits(head[|head| - 8..]) && tail != [])
    ensures GetNextVersion(head + "." + tail, today) == Success(today + ".1")
  {
    SplitPair(head, tail);
  }

  /** A tag of the semantic scheme: more than two dot-separated segments. */
  predicate IsSemantic(tag: string) {
    |Split(tag, '.')| > 2
  }

  /** A character absent from a tag is absent from the prefix of its dated match. */
  lemma PrefixAvoids(tag: string, c: char)
    requires |Split(tag, '.')| <= 2 && '\n' !in tag
    requires MatchDated(tag).Some?
    requires c !in tag
    ensures c !in MatchDated(tag).value.prefix
  {
    var m := MatchDated(tag).value;
    forall i | 0 <= i < |m.prefix| ensures m.prefix[i] != c {
      assert tag[i] == m.prefix[i];
    }
  }

  /** A semantic tag whose last segment is an integer, so that it can be incremented again. */
  predicate IsBumpableSemantic(tag: string) {
    && '\n' !in tag
    && IsSemantic(tag)
    && Atoi(Split(tag, '.')[|Split(tag, '.')| - 1]).Success?
  }

  /** A dated tag for `today` whose minor is an integer, so that it can be incremented again. */
  predicate IsBumpableDated(tag: string, today: string) {
    && '\n' !in tag
    && !IsSemantic(tag)
    && MatchDated(tag).Some?
    && MatchDated(tag).value.date == today
    && Atoi(MatchDated(tag).value.minor).Success?
  }

  lemma FirstVersionIsBumpable()
    ensures IsBumpableSemantic(FirstVersion)
  {
    assert Join(["v1", "0", "0"], '.') == FirstVersion;
    SplitJoin(["v1", "0", "0"], '.');
    assert Atoi("0") == Success(0);
  }

  lemma SemanticNextIsBumpable(tag: string, today: string)
    requires IsDateStamp(today)
    requires '\n' !in tag
    requires IsBumpableSemantic(tag)
    ensures GetNextVersion(tag, today).Success?
    ensures IsBumpableSemantic(GetNextVersion(tag, today).value)
  {
    var segs := Split(tag, '.');
    var n := |segs|;
    var x := Increment(Atoi(segs[n - 1]).value);
    var parts := segs[n - 1 := Itoa(x)];
    SemanticNext(tag, today);
    AtoiItoa(x);
    SplitAvoids(tag, '.', '\n');
    ItoaAvoids(x, '\n');
    JoinAvoids(parts, '.', '\n');
  }

  lemma TodayDatedIsBumpable(prefix: string, minor: string, today: string)
    requires IsDatedShape(prefix, today, minor)
    requires '\n' !in prefix && '\n' !in minor
    requires Atoi(minor).Success?
    ensures IsBumpableDated(prefix + today + "." + minor, today)
  {
    MatchDatedComplete(prefix, today, minor);
  }

  lemma DatedNextIsBumpable(tag: string, today: string)
    requires IsDateStamp(today)
    requires tag != "" && '\n' !in tag && !IsSemantic(tag)
    requires GetNextVersion(tag, today).Success?
    ensures IsBumpableDated(GetNextVersion(tag, today).value, today)
  {
    var next := GetNextVersion(tag, today).value;
    assert Atoi("1") == Success(1);
    match MatchDated(tag)
    case None =>
      assert next == "" + today + "." + "1";
      TodayDatedIsBumpable("", "1", today);
    case Some(m) =>
      PrefixAvoids(tag, '\n');
      if m.date == today {
        var x := Increment(Atoi(m.minor).value);
        AtoiItoa(x);
        ItoaAvoids(x, '.');
        ItoaAvoids(x, '\n');
        TodayDatedIsBumpable(m.prefix, Itoa(x), today);
      } else {
        TodayDatedIsBumpable(m.prefix, "1", today);
      }
  }

  /**
   * The next tag stays in the scheme of the previous one: a semantic tag (or
   * none at all) gives a semantic tag whose last segment is an integer, and
   * a non-semantic tag gives a dated tag for today whose minor is an integer.
   */
  lemma NextKeepsScheme(tag: string, today: string)
    requires IsDateStamp(today)
    requires '\n' !in tag
    requires GetNextVersion(tag, today).Success?
    ensures tag == "" || IsSemantic(tag) ==> IsBumpableSemantic(GetNextVersion(tag, today).value)
    ensures tag != "" && !IsSemantic(tag) ==> IsBumpableDated(GetNextVersion(tag, today).value, today)
  {
    if tag == "" {
      FirstVersionIsBumpable();
    } else if IsSemantic(tag) {
      SemanticNextIsBumpable(tag, today);
    } else {
      DatedNextIsBumpable(tag, today);
    }
  }

  /** Whenever a next tag is computed, the tag after it can be computed too (on the same day). */
  lemma NextIsIterable(tag: string, today: string)
    requires IsDateStamp(today)
    requires '\n' !in tag
    requires GetNextVersion(tag, today).Success?
    ensures '\n' !in GetNextVersion(tag, today).value
    ensures GetNextVersion(GetNextVersion(tag, today).value, today).Success?
  {
    NextKeepsScheme(tag, today);
    var next := GetNextVersion(tag, today).value;
    if IsSemantic(next) {
      var segs := Split(next, '.');
      assert Atoi(segs[|segs| - 1]).Success?;
    } else {
      assert MatchDated(next).Some?;
    }
  }

  /** The first tag of a repository without tags. */
  lemma ExampleEmpty(today: string)
    requires IsDateStamp(today)
    ensures GetNextVersion("", today) == Success("v1.0.0")
  {
  }

  /** Semantic branch on a three-segment tag, with the segments joined. */
  lemma ThreePartBumpJoined(major: string, minor: string, patch: string, today: string)
    requires IsDateStamp(today)
    requires '.' !in major && '.' !in minor && '.' !in patch
    requires '\n' !in major && '\n' !in minor && '\n' !in patch
    requires Atoi(patch).Success?
    ensures '\n' !in Join([major, minor, patch], '.')
    ensures GetNextVersion(Join([major, minor, patch], '.'), today)
            == Success(Join([major, minor, Itoa(Increment(Atoi(patch).value))], '.'))
  {
    PartsClean(major, minor, patch);
    SemanticBump([major, minor, patch], today);
    var next := Itoa(Increment(Atoi(patch).value));
    assert [major, minor, patch][2 := next] == [major, minor, next];
  }

  /** Semantic branch on a three-segment tag, with the segments as strings. */
  lemma ThreePartBump(major: string, minor: string, patch: string, next: string, today: string)
    requires IsDateStamp(today)
    requires '.' !in major && '.' !in minor && '.' !in patch
    requires '\n' !in major && '\n' !in minor && '\n' !in patch
    requires Atoi(patch).Success? && next == Itoa(Increment(Atoi(patch).value))
    ensures GetNextVersion(major + "." + minor + "." + patch, today)
            == Success(major + "." + minor + "." + next)
  {
    ThreePartBumpJoined(major, minor, patch, today);
    JoinThree(major, minor, patch);
    JoinThree(major, minor, next);
  }

  /** The three segments are free of the separator and of line breaks. */
  lemma PartsClean(a: string, b: string, c: string)
    requires '.' !in a && '.' !in b && '.' !in c
    requires '\n' !in a && '\n' !in b && '\n' !in c
    ensures forall i :: 0 <= i < |[a, b, c]| ==> '.' !in [a, b, c][i] && '\n' !in [a, b, c][i]
  {
  }

  /** Joining three segments with `.`. */
  lemma JoinThree(a: string, b: string, c: string)
    ensures Join([a, b, c], '.') == a + "." + b + "." + c
  {
    assert [a, b, c][1..] == [b, c];
    assert [b, c][1..] == [c];
    assert Join([b, c], '.') == b + "." + c;
  }

  /** `v3.1.5` becomes `v3.1.6`. */
  lemma ExampleSemanticWithPrefix(today: string)
    requires IsDateStamp(today)
    ensures GetNextVersion("v3.1.5", today) == Success("v3.1.6")
  {
    AtoiDigit('5');
    ItoaDigit(6);
    ThreePartBump("v3", "1", "5", "6", today);
    assert "v3" + "." + "1" + "." + "5" == "v3.1.5";
    assert "v3" + "." + "1" + "." + "6" == "v3.1.6";
  }

  /** `4.2.6` becomes `4.2.7`. */
  lemma ExampleSemanticPlain(today: string)
    requires IsDateStamp(today)
    ensures GetNextVersion("4.2.6", today) == Success("4.2.7")
  {
    AtoiDigit('6');
    ItoaDigit(7);
    ThreePartBump("4", "2", "6", "7", today);
    assert "4" + "." + "2" + "." + "6" == "4.2.6";
    assert "4" + "." + "2" + "." + "7" == "4.2.7";
  }

  /** `Atoi` accepts a sign, so `1.2.-1` becomes `1.2.0`. */
  lemma ExampleSemanticSigned(today: string)
    requires IsDateStamp(today)
    ensures GetNextVersion("1.2.-1", today) == Success("1.2.0")
  {
    assert Atoi("-1") == Success(-1);
    ItoaDigit(0);
    ThreePartBump("1", "2", "-1", "0", today);
    assert "1" + "." + "2" + "." + "-1" == "1.2.-1";
    assert "1" + "." + "2" + "." + "0" == "1.2.0";
  }

  /** A non-numeric patch segment is an invalid-syntax error. */
  lemma ExampleSemanticError(today: string)
    requires IsDateStamp(today)
    ensures GetNextVersion("4.2.semantic", today) == Failure(NumError("semantic", ErrSyntax))
  {
    assert Join(["4", "2", "semantic"], '.') == "4.2.semantic";
    SplitJoin(["4", "2", "semantic"], '.');
    assert !IsIntLiteral("semantic");
  }

  /** A stale dated tag restarts today's counter. */
  lemma ExampleDatedStale(today: string)
    requires IsDateStamp(today) && today != "20180525"
    ensures GetNextVersion("20180525.1", today) == Success(today + ".1")
  {
    assert "20180525.1" == "" + "20180525" + "." + "1";
    DatedStale("", "20180525", "1", today);
    assert "" + today + ".1" == today + ".1";
  }

  /** A stale dated tag with a prefix restarts today's counter and keeps the prefix. */
  lemma ExampleDatedStaleWithPrefix(today: string)
    requires IsDateStamp(today) && today != "20180525"
    ensures GetNextVersion("release_20180525.1", today) == Success("release_" + today + ".1")
  {
    assert "release_20180525.1" == "release_" + "20180525" + "." + "1";
    DatedStale("release_", "20180525", "1", today);
  }

  /** Today's dated tag counts up. */
  lemma ExampleDatedSameDay(today: string)
    requires IsDateStamp(today)
    ensures GetNextVersion(today + ".1", today) == Success(today + ".2")
  {
    assert Atoi("1") == Success(1) && Itoa(2) == "2";
    assert today + ".1" == "" + today + "." + "1";
    assert today + ".2" == "" + today + "." + "2";
    DatedSameDay("", "1", today);
  }

  /** Today's dated tag with a prefix counts up and keeps the prefix. */
  lemma ExampleDatedSameDayWithPrefix(today: string)
    requires IsDateStamp(today)
    ensures GetNextVersion("release_" + today + ".1", today) == Success("release_" + today + ".2")
  {
    assert Atoi("1") == Success(1) && Itoa(2) == "2";
    assert "release_" + today + ".1" == "release_" + today + "." + "1";
    assert "release_" + today + ".2" == "release_" + today + "." + "2";
    DatedSameDay("release_", "1", today);
  }

  /** Today's dated tag with a non-numeric minor is an invalid-syntax error. */
  lemma ExampleDatedError(today: string)
    requires IsDateStamp(today)
    ensures GetNextVersion(today + ".date", today) == Failure(NumError("date", ErrSyntax))
  {
    assert !IsIntLiteral("date");
    assert today + ".date" == "" + today + "." + "date";
    DatedSameDayBadMinor("", "date", today);
  }

  /** Tags of neither scheme fall back to today's first release. */
  lemma ExampleUndated(today: string)
    requires IsDateStamp(today)
    ensures GetNextVersion("v1.2", today) == Success(today + ".1")
    ensures GetNextVersion("release", today) == Success(today + ".1")
  {
    assert "v1.2" == "v1" + "." + "2";
    UndatedOneDot("v1", "2", today);
    UndatedNoDot("release", today);
  }

  /** `GetReleaseNote(tag, list)`: a title line, a blank line, a heading line, then the list. */
  function GetReleaseNote(tag: string, list: string): (note: string)
    ensures |note| == 2 * |tag| + |list| + 14
    ensures note[..8] == "Release " && note[8..8 + |tag|] == tag
    ensures note[|note| - |list|..] == list
  {
    "Release " + tag + "\n\n" + "## " + tag + "\n" + list
  }

  /** The note is the title prefix followed by the tag, the heading and the list. */
  lemma ReleaseNoteLayout(tag: string, list: string)
    ensures GetReleaseNote(tag, list) == "Release " + (tag + ("\n\n## " + tag + "\n") + list)
  {
  }

  /** The position of the first `c` in `s`, or `|s|` when there is none. */
  function IndexOf(s: string, c: char): (i: nat)
    ensures i <= |s|
    ensures i < |s| ==> s[i] == c
    ensures forall j :: 0 <= j < i ==> s[j] != c
    decreases |s|
  {
    if s == [] || s[0] == c then 0 else 1 + IndexOf(s[1..], c)
  }

  /**
   * Reads the tag and the merge-commit list back out of a release note: the
   * inverse of `GetReleaseNote` for tags without a line break.
   */
  function ParseReleaseNote(note: string): (r: Option<(string, string)>)
    ensures r.Some? ==> '\n' !in r.value.0 && note == GetReleaseNote(r.value.0, r.value.1)
  {
    if |note| < 8 || note[..8] != "Release " then None
    else
      var rest := note[8..];
      var i := IndexOf(rest, '\n');
      var tag := rest[..i];
      var header := "\n\n## " + tag + "\n";
      if i + |header| <= |rest| && rest[i..i + |header|] == header then
        var list := rest[i + |header|..];
        assert rest == tag + header + list;
        assert note == "Release " + rest;
        ReleaseNoteLayout(tag, list);
        Some((tag, list))
      else None
  }

  /** A release note determines its tag and list: parsing it gives both back. */
  lemma ReleaseNoteRoundTrip(tag: string, list: string)
    requires '\n' !in tag
    ensures ParseReleaseNote(GetReleaseNote(tag, list)) == Some((tag, list))
  {
    var note := GetReleaseNote(tag, list);
    var rest := note[8..];
    var header := "\n\n## " + tag + "\n";
    ReleaseNoteLayout(tag, list);
    assert rest == tag + header + list;
    var i := IndexOf(rest, '\n');
    assert rest[|tag|] == '\n';
    assert i == |tag|;
    assert rest[..i] == tag;
    assert rest[i..i + |header|] == header;
    assert rest[i + |header|..] == list;
  }

  /** Two release notes are equal only when their tags and their lists are. */
  lemma ReleaseNoteInjective(tag1: string, list1: string, tag2: string, list2: string)
    requires '\n' !in tag1 && '\n' !in tag2
    requires GetReleaseNote(tag1, list1) == GetReleaseNote(tag2, list2)
    ensures tag1 == tag2 && list1 == list2
  {
    ReleaseNoteRoundTrip(tag1, list1);
    ReleaseNoteRoundTrip(tag2, list2);
  }
}
