/** The string helpers of common/utils.cpp.

A C++ `std::string` is modelled as a Dafny `string`; every statement holds for all strings, so in
particular for those whose characters are bytes.
*/
module Text {
  import opened Wrappers

  /** `d` occurs in `s` at position `i`. */
  predicate At(s: string, d: string, i: int) {
    0 <= i && i + |d| <= |s| && forall j :: 0 <= j < |d| ==> d[j] == s[i + j]
  }

  lemma AtHas(s: string, d: string, i: int, j: nat)
    requires j < |d|
    ensures At(s, d, i) ==> 0 <= i && i + j < |s| && s[i + j] == d[j]
  {
  }

  ghost predicate Contains(s: string, d: string) {
    exists i :: At(s, d, i)
  }

  /** `std::string::find` and `std::search`: the first occurrence at or after `from`. */
  function Find(s: string, d: string, from: nat): (r: Option<nat>)
    ensures r.Some? ==> from <= r.value && r.value + |d| <= |s|
    decreases |s| - from
  {
    if At(s, d, from) then Some(from)
    else if from >= |s| then None
    else Find(s, d, from + 1)
  }

  /** A search finds an occurrence with none before it, or there is none at all. */
  lemma {:induction false} FindFirst(s: string, d: string, from: nat)
    ensures match Find(s, d, from)
      case Some(p) => At(s, d, p) && forall i :: from <= i < p ==> !At(s, d, i)
      case None => forall i :: from <= i ==> !At(s, d, i)
    decreases |s| - from
  {
    if !At(s, d, from) && from < |s| { FindFirst(s, d, from + 1); }
  }

  /** That decides what it finds. */
  lemma FindIs(s: string, d: string, from: nat, p: nat)
    requires from <= p && At(s, d, p) && forall i :: from <= i < p ==> !At(s, d, i)
    ensures Find(s, d, from) == Some(p)
  {
    FindFirst(s, d, from);
  }

  lemma AtInSuffix(s: string, d: string, k: nat, i: nat)
    requires k <= |s|
    ensures At(s[k..], d, i) == At(s, d, k + i)
  {
  }

  /** Looking from `k` on is looking in the text with its first `k` characters dropped. */
  lemma FindInSuffix(s: string, d: string, k: nat)
    requires k <= |s|
    ensures Find(s, d, k) == match Find(s[k..], d, 0) case None => None case Some(i) => Some(k + i)
  {
    forall i | k <= i ensures At(s, d, i) == At(s[k..], d, i - k) { AtInSuffix(s, d, k, i - k); }
    FindFirst(s[k..], d, 0);
    FindFirst(s, d, k);
    if Find(s[k..], d, 0).Some? {
      FindIs(s, d, k, k + Find(s[k..], d, 0).value);
    }
  }

  lemma AtInExtension(s: string, d: string, more: string, i: nat)
    requires i + |d| <= |s|
    ensures At(s + more, d, i) == At(s, d, i)
  {
    forall j | 0 <= j < |d| ensures d[j] == (s + more)[i + j] <==> d[j] == s[i + j] {
    }
  }

  /** Text arriving later does not move an occurrence that is already there. */
  lemma FindInExtension(s: string, d: string, more: string)
    requires Find(s, d, 0).Some?
    ensures Find(s + more, d, 0) == Find(s, d, 0)
  {
    FindFirst(s, d, 0);
    var p := Find(s, d, 0).value;
    forall i | 0 <= i <= p ensures At(s + more, d, i) == At(s, d, i) { AtInExtension(s, d, more, i); }
    FindIs(s + more, d, 0, p);
  }

  // ---------------------------------------------------------------- split and join

  /** The parts of `s` between occurrences of `d`, after at most `cuts` cuts; a negative `cuts` never runs out. */
  function Parts(s: string, d: string, cuts: int): (parts: seq<string>)
    requires |d| > 0
    ensures |parts| >= 1
    ensures cuts >= 0 ==> |parts| <= cuts + 1
    decreases |s|
  {
    match Find(s, d, 0)
    case None => [s]
    case Some(i) => if cuts == 0 then [s] else [s[..i]] + Parts(s[i + |d|..], d, cuts - 1)
  }

  function Joined(parts: seq<string>, d: string): string {
    if |parts| == 0 then "" else if |parts| == 1 then parts[0] else parts[0] + d + Joined(parts[1..], d)
  }

  /** `split(line, delimiter, max_parts)` stops after `max_parts - 1` cuts, except that its test
  never succeeds for a limit below two. */
  function CutLimit(maxParts: int): int {
    if maxParts >= 2 then maxParts - 1 else -1
  }

  lemma JoinedStep(a: string, rest: seq<string>, d: string)
    requires |rest| >= 1
    ensures Joined([a] + rest, d) == a + d + Joined(rest, d)
  {
    assert ([a] + rest)[1..] == rest;
  }

  lemma JoinedSnoc(parts: seq<string>, last: string, d: string)
    requires |parts| >= 1
    ensures Joined(parts + [last], d) == Joined(parts, d) + d + last
  {
    if |parts| == 1 {
      assert parts + [last] == [parts[0], last];
    } else {
      assert (parts + [last])[1..] == parts[1..] + [last];
      JoinedSnoc(parts[1..], last, d);
    }
  }

  lemma AtSlice(s: string, d: string, i: nat)
    requires At(s, d, i)
    ensures s[i..i + |d|] == d
  {
  }

  lemma CutAt(s: string, d: string, i: nat)
    requires Find(s, d, 0) == Some(i)
    ensures s == s[..i] + d + s[i + |d|..]
  {
    assert d == s[i..i + |d|] by { FindFirst(s, d, 0); AtSlice(s, d, i); }
  }

  lemma JoinOneCut(s: string, d: string, cuts: int, i: nat)
    requires |d| > 0 && cuts != 0 && Find(s, d, 0) == Some(i)
    requires Joined(Parts(s[i + |d|..], d, cuts - 1), d) == s[i + |d|..]
    ensures Joined(Parts(s, d, cuts), d) == s
  {
    JoinedStep(s[..i], Parts(s[i + |d|..], d, cuts - 1), d);
    CutAt(s, d, i);
  }

  /** Joining undoes splitting, whatever the limit. */
  lemma {:induction false} JoinUndoesSplit(s: string, d: string, cuts: int)
    requires |d| > 0
    ensures Joined(Parts(s, d, cuts), d) == s
    decreases |s|
  {
    if Find(s, d, 0).Some? && cuts != 0 {
      var i := Find(s, d, 0).value;
      var rest := s[i + |d|..];
      JoinUndoesSplit(rest, d, cuts - 1);
      JoinOneCut(s, d, cuts, i);
    }
  }

  /** A proper, non-empty prefix of `d` that is also its suffix, of length `k`. */
  predicate BorderOf(d: string, k: nat) {
    0 < k < |d| && d[..k] == d[|d| - k..]
  }

  ghost predicate HasBorder(d: string) {
    exists k :: BorderOf(d, k)
  }

  ghost predicate DelimiterFree(parts: seq<string>, d: string) {
    forall i :: 0 <= i < |parts| ==> !Contains(parts[i], d)
  }

  lemma OverlapIsBorder(p: string, d: string, rest: string, i: nat)
    requires |d| > 0 && i < |p| && !Contains(p, d)
    requires At(p + d + rest, d, i)
    ensures HasBorder(d)
  {
    var s := p + d + rest;
    if i + |d| > |p| {
      var k := i + |d| - |p|;
      forall j | 0 <= j < k ensures d[..k][j] == d[|d| - k..][j] {
        assert d[|d| - k + j] == s[i + (|d| - k + j)];
      }
      assert BorderOf(d, k);
    } else {
      assert At(p, d, i);
    }
  }

  /** After a part without the delimiter, the first occurrence is the one right behind it. */
  lemma FindAfterPart(p: string, d: string, rest: string)
    requires |d| > 0 && !HasBorder(d) && !Contains(p, d)
    ensures Find(p + d + rest, d, 0) == Some(|p|)
  {
    var s := p + d + rest;
    forall i | 0 <= i < |p| ensures !At(s, d, i) {
      if At(s, d, i) {
        OverlapIsBorder(p, d, rest, i);
      }
    }
    FindIs(s, d, 0, |p|);
  }

  /** Splitting undoes joining when the delimiter does not overlap itself. */
  lemma {:induction false} SplitUndoesJoin(parts: seq<string>, d: string)
    requires |d| > 0 && !HasBorder(d) && |parts| >= 1 && DelimiterFree(parts, d)
    ensures forall cuts :: cuts < 0 ==> Parts(Joined(parts, d), d, cuts) == parts
  {
    if |parts| == 1 {
      FindFirst(parts[0], d, 0);
    } else {
      var rest := Joined(parts[1..], d);
      SplitUndoesJoin(parts[1..], d);
      FindAfterPart(parts[0], d, rest);
      var s := Joined(parts, d);
      assert s[..|parts[0]|] == parts[0] && s[|parts[0]| + |d|..] == rest;
      assert parts == [parts[0]] + parts[1..];
    }
  }

  lemma BorderOverlaps(d: string, k: nat)
    requires BorderOf(d, k)
    ensures At(d[..|d| - k] + d, d, 0)
  {
    var p := d[..|d| - k];
    forall j | 0 <= j < |d| ensures d[j] == (p + d)[j] {
      if j >= |p| { assert d[|d| - k..][j - |p|] == d[..k][j - |p|]; }
    }
  }

  /** An overlapping delimiter breaks the inversion on some delimiter-free list. */
  lemma BorderBreaksSplit(d: string, k: nat)
    requires BorderOf(d, k)
    ensures var parts := [d[..|d| - k], ""]; DelimiterFree(parts, d) && Parts(Joined(parts, d), d, -1) != parts
  {
    var p := d[..|d| - k];
    var s := p + d;
    JoinedStep(p, [""], d);
    assert Joined([p, ""], d) == s;
    BorderOverlaps(d, k);
    FindIs(s, d, 0, 0);
    assert Parts(s, d, -1)[0] == s[..0];
  }

  /** Splitting inverts joining on every non-empty delimiter-free list exactly when the delimiter has no border. */
  lemma SplitInvertsJoinIff(d: string)
    requires |d| > 0
    ensures (forall parts :: |parts| >= 1 && DelimiterFree(parts, d) ==> Parts(Joined(parts, d), d, -1) == parts)
      <==> !HasBorder(d)
  {
    if HasBorder(d) {
      var k :| BorderOf(d, k);
      BorderBreaksSplit(d, k);
    } else {
      forall parts | |parts| >= 1 && DelimiterFree(parts, d) ensures Parts(Joined(parts, d), d, -1) == parts {
        SplitUndoesJoin(parts, d);
      }
    }
  }

  lemma Reslice(s: string, from: nat, pos: nat, skip: nat)
    requires from <= pos && pos + skip <= |s|
    ensures s[from..][..pos - from] == s[from..pos]
    ensures s[from..][pos - from + skip..] == s[pos + skip..]
  {
  }

  lemma Reassociate<T>(a: seq<T>, b: seq<T>, c: seq<T>)
    ensures a + (b + c) == (a + b) + c
  {
  }

  /** `found` are the parts before position `from`; `cuts` are left for the text after it. */
  ghost predicate Cut(whole: seq<string>, found: seq<string>, line: string, d: string, cuts: int, from: nat)
    requires |d| > 0
  {
    from <= |line| && whole == found + Parts(line[from..], d, cuts)
  }

  lemma CutNone(line: string, d: string, cuts: int)
    requires |d| > 0
    ensures Cut(Parts(line, d, cuts), [], line, d, cuts, 0)
  {
    assert line[0..] == line;
  }

  lemma PartsOneCut(line: string, d: string, cuts: int, from: nat, pos: nat)
    requires |d| > 0 && cuts != 0 && from <= |line| && Find(line, d, from) == Some(pos)
    ensures Parts(line[from..], d, cuts) == [line[from..pos]] + Parts(line[pos + |d|..], d, cuts - 1)
  {
    hide Find;
    FindInSuffix(line, d, from);
    Reslice(line, from, pos, |d|);
  }

  lemma CutOne(whole: seq<string>, found: seq<string>, line: string, d: string, cuts: int, from: nat, pos: nat)
    requires |d| > 0 && cuts != 0 && Cut(whole, found, line, d, cuts, from) && Find(line, d, from) == Some(pos)
    ensures Cut(whole, found + [line[from..pos]], line, d, cuts - 1, pos + |d|)
  {
    PartsOneCut(line, d, cuts, from, pos);
    Reassociate(found, [line[from..pos]], Parts(line[pos + |d|..], d, cuts - 1));
  }

  lemma CutLast(whole: seq<string>, found: seq<string>, line: string, d: string, cuts: int, from: nat)
    requires |d| > 0 && Cut(whole, found, line, d, cuts, from) && (cuts == 0 || Find(line, d, from).None?)
    ensures whole == found + [line[from..]]
  {
    FindInSuffix(line, d, from);
  }

  /** The scan of `split`: positions move forward over the line, parts are appended one by one. */
  method Split(line: string, delimiter: string, maxParts: int := -1) returns (strs: seq<string>)
    requires |delimiter| > 0
    ensures strs == Parts(line, delimiter, CutLimit(maxParts))
    ensures maxParts >= 2 ==> |strs| <= maxParts
  {
    hide Parts, Find, Cut;
    var parts := 0;
    strs := [];
    var prevPos := 0;
    var pos := Find(line, delimiter, prevPos);
    ghost var cuts := CutLimit(maxParts);
    ghost var whole := Parts(line, delimiter, cuts);
    CutNone(line, delimiter, cuts);
    while pos.Some?
      invariant 0 <= prevPos <= |line|
      invariant parts >= 0 && cuts != 0 && cuts == CutLimit(maxParts) - parts && (maxParts >= 2 ==> cuts > 0)
      invariant pos == Find(line, delimiter, prevPos)
      invariant Cut(whole, strs, line, delimiter, cuts, prevPos)
      decreases |line| - prevPos
    {
      parts := parts + 1;
      CutOne(whole, strs, line, delimiter, cuts, prevPos, pos.value);
      strs := strs + [line[prevPos..pos.value]];
      prevPos := pos.value + |delimiter|;
      cuts := cuts - 1;
      if parts == maxParts - 1 {
        break;
      }
      pos := Find(line, delimiter, prevPos);
    }
    CutLast(whole, strs, line, delimiter, cuts, prevPos);
    strs := strs + [line[prevPos..]];
  }

  /** The connector goes before every element but the first. */
  method Join(vec: seq<string>, connector: string) returns (ss: string)
    ensures ss == Joined(vec, connector)
  {
    ss := "";
    var first := true;
    for i := 0 to |vec|
      invariant first == (i == 0)
      invariant ss == Joined(vec[..i], connector)
    {
      assert vec[..i + 1] == vec[..i] + [vec[i]];
      if !first {
        ss := ss + connector;
        JoinedSnoc(vec[..i], vec[i], connector);
      }
      ss := ss + vec[i];
      first := false;
    }
    assert vec[..|vec|] == vec;
  }

  // ---------------------------------------------------------------- dequoted

  function Escaped(s: string): string {
    if |s| == 0 then "" else (if s[0] == '\\' || s[0] == '\"' then ['\\', s[0]] else [s[0]]) + Escaped(s[1..])
  }

  /** What `dequoted` makes of positions `beg` up to `end`, one character at a time. */
  function Unescaped(str: string, beg: nat, end: nat): string
    requires end <= |str|
    decreases end - beg
  {
    if beg >= end then ""
    else if str[beg] == '\\' && beg + 1 < end && (str[beg + 1] == '\\' || str[beg + 1] == '\"')
    then [str[beg + 1]] + Unescaped(str, beg + 2, end)
    else [str[beg]] + Unescaped(str, beg + 1, end)
  }

  function DequotedText(str: string): string {
    if |str| > 0 && str[0] == '\"'
    then if |str| < 2 || str[|str| - 1] != '\"' then str else Unescaped(str, 1, |str| - 1)
    else Unescaped(str, 0, |str|)
  }

  lemma UnescapedPlain(str: string, beg: nat, mid: nat, end: nat)
    requires beg <= mid <= end <= |str| && forall i :: beg <= i < mid ==> str[i] != '\\'
    ensures Unescaped(str, beg, end) == str[beg..mid] + Unescaped(str, mid, end)
    decreases mid - beg
  {
    if beg < mid {
      UnescapedPlain(str, beg + 1, mid, end);
      assert str[beg..mid] == [str[beg]] + str[beg + 1..mid];
    }
  }

  lemma NoBackslashBefore(str: string, beg: nat, found: Option<nat>)
    requires found == Find(str, "\\", beg)
    ensures forall i :: beg <= i < (if found.None? then |str| else found.value) ==> str[i] != '\\'
    ensures found.Some? ==> str[found.value] == '\\'
  {
    FindFirst(str, "\\", beg);
    forall i | beg <= i < (if found.None? then |str| else found.value) ensures str[i] != '\\' {
      assert !At(str, "\\", i);
    }
    assert found.Some? ==> "\\"[0] == str[found.value + 0];
  }

  /** A backslash in last position stands for itself. */
  lemma {:induction false} UnescapedTail(str: string, beg: nat, end: nat)
    requires beg <= end <= |str| && forall i :: beg <= i < end - 1 ==> str[i] != '\\'
    ensures Unescaped(str, beg, end) == str[beg..end]
    decreases end - beg
  {
    if beg < end {
      UnescapedTail(str, beg + 1, end);
      assert str[beg..end] == [str[beg]] + str[beg + 1..end];
    }
  }

  /** `s` is what has been written for the positions before `beg`. */
  ghost predicate Written(whole: string, s: string, str: string, beg: nat, end: nat)
    requires end <= |str|
  {
    whole == s + Unescaped(str, beg, end)
  }

  /** One turn of the loop writes the run up to a backslash, then `x` for what follows. */
  lemma WriteEscape(whole: string, s: string, str: string, beg: nat, i: nat, end: nat, x: string, next: nat)
    requires beg <= i && i + 1 < end <= |str| && str[i] == '\\' && forall j :: beg <= j < i ==> str[j] != '\\'
    requires Written(whole, s, str, beg, end)
    requires str[i + 1] == '\\' || str[i + 1] == '\"' ==> x == [str[i + 1]] && next == i + 2
    requires str[i + 1] != '\\' && str[i + 1] != '\"' ==> x == "\\" && next == i + 1
    ensures Written(whole, s + str[beg..i] + x, str, next, end)
  {
    UnescapedPlain(str, beg, i, end);
    assert Unescaped(str, i, end) == x + Unescaped(str, next, end);
    Reassociate(s, str[beg..i], x + Unescaped(str, next, end));
    Reassociate(s + str[beg..i], x, Unescaped(str, next, end));
  }

  lemma WriteNone(str: string, beg: nat, end: nat)
    requires end <= |str|
    ensures Written(Unescaped(str, beg, end), "", str, beg, end)
  {
  }

  lemma WriteTail(whole: string, s: string, str: string, beg: nat, end: nat)
    requires beg <= end <= |str| && forall i :: beg <= i < end - 1 ==> str[i] != '\\'
    requires Written(whole, s, str, beg, end)
    ensures whole == s + str[beg..end] && Written(whole, s + str[beg..end], str, end, end)
  {
    UnescapedTail(str, beg, end);
  }

  /** Copies runs without a backslash and rewrites `\\` and `\"`. */
  method Dequoted(str: string) returns (s: string)
    ensures s == DequotedText(str)
  {
    if |str| == 0 {
      return str;
    }
    var beg, end := 0, |str|;
    if str[0] == '\"' {
      if end < 2 || str[|str| - 1] != '\"' {
        return str;
      }
      beg, end := beg + 1, end - 1;
    }
    s := "";
    ghost var whole := Unescaped(str, beg, end);
    WriteNone(str, beg, end);
    while beg < end
      invariant 0 <= beg <= end <= |str|
      invariant Written(whole, s, str, beg, end)
    {
      var found := Find(str, "\\", beg);
      NoBackslashBefore(str, beg, found);
      if found.None? || found.value + 1 >= end {
        WriteTail(whole, s, str, beg, end);
        s := s + str[beg..end];
        beg := end;
      } else {
        var i := found.value;
        var c := str[i + 1];
        ghost var next := if c == '\\' || c == '\"' then i + 2 else i + 1;
        WriteEscape(whole, s, str, beg, i, end, if next == i + 2 then [c] else "\\", next);
        s := s + str[beg..i];
        if c == '\\' || c == '\"' {
          s := s + [c];
          beg := i + 2;
        } else {
          s := s + "\\";
          beg := i + 1;
        }
      }
    }
    WriteTail(whole, s, str, beg, end);
    assert s + str[beg..end] == s;
  }

  lemma {:induction false} UnescapedEscaped(pre: string, s: string, post: string)
    ensures var str := pre + Escaped(s) + post; Unescaped(str, |pre|, |pre| + |Escaped(s)|) == s
    decreases |s|
  {
    if |s| > 0 {
      var head := if s[0] == '\\' || s[0] == '\"' then ['\\', s[0]] else [s[0]];
      var str := pre + Escaped(s) + post;
      assert str == (pre + head) + Escaped(s[1..]) + post;
      UnescapedEscaped(pre + head, s[1..], post);
      assert str[|pre|] == head[0];
      assert |head| == 2 ==> str[|pre| + 1] == head[1];
    }
  }

  /** Escaping and quoting, then `dequoted`, gives the string back. */
  lemma DequotedUndoesQuoting(s: string)
    ensures DequotedText("\"" + Escaped(s) + "\"") == s
  {
    UnescapedEscaped("\"", s, "\"");
  }

  /** So does escaping alone. */
  lemma DequotedUndoesEscaping(s: string)
    ensures DequotedText(Escaped(s)) == s
  {
    UnescapedEscaped("", s, "");
    assert "" + Escaped(s) + "" == Escaped(s);
  }
}
