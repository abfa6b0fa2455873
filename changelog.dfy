/**
 * The changelog section extractor of scripts/changelog.py (class ChangelogParser).
 *
 * A document is a sequence of lines exactly as Python's file iteration yields them,
 * so a line may end in one "\n". The three regular expressions of the parser are
 * stated as predicates that agree with `re.match` on ANY string: the match is
 * anchored at the start, `.` does not match "\n", and `$` (without MULTILINE)
 * holds at the end of the string or just before one final "\n".
 */
module Changelog {

  datatype State = Init | Bullet | All | End

  /** The effect of one line: the next state and the lines appended to the accumulator. */
  datatype Step = Step(state: State, appended: seq<string>)

  // ---------------------------------------------------------------------------
  // Characters and whitespace

  /** Python's str.isspace: what `\s` matches in a str pattern and what str.strip() removes. */
  predicate IsSpace(c: char)
  {
    c == ' ' || ('\t' <= c <= '\r') || ('\U{1c}' <= c <= '\U{1f}') || c == '\U{85}' || c == '\U{a0}'
    || c == '\U{1680}' || ('\U{2000}' <= c <= '\U{200a}') || c == '\U{2028}' || c == '\U{2029}'
    || c == '\U{202f}' || c == '\U{205f}' || c == '\U{3000}'
  }

  /** The character class `[0-9.]`. */
  predicate IsDigitOrDot(c: char)
  {
    ('0' <= c <= '9') || c == '.'
  }

  predicate AllSpace(s: string)
  {
    forall k :: 0 <= k < |s| ==> IsSpace(s[k])
  }

  /** The number of leading characters of `s` equal to `c`. */
  function LeadingRun(s: string, c: char): (n: nat)
    ensures n <= |s|
    ensures forall k :: 0 <= k < n ==> s[k] == c
    ensures n < |s| ==> s[n] != c
  {
    if s != [] && s[0] == c then 1 + LeadingRun(s[1..], c) else 0
  }

  /** The number of leading whitespace characters of `s`. */
  function LeadingSpaces(s: string): (n: nat)
    ensures n <= |s|
    ensures forall k :: 0 <= k < n ==> IsSpace(s[k])
    ensures n < |s| ==> !IsSpace(s[n])
  {
    if s != [] && IsSpace(s[0]) then 1 + LeadingSpaces(s[1..]) else 0
  }

  /** The number of leading characters of `s` in `[0-9.]`. */
  function LeadingDigits(s: string): (n: nat)
    ensures n <= |s|
    ensures forall k :: 0 <= k < n ==> IsDigitOrDot(s[k])
    ensures n < |s| ==> !IsDigitOrDot(s[n])
  {
    if s != [] && IsDigitOrDot(s[0]) then 1 + LeadingDigits(s[1..]) else 0
  }

  /** The number of trailing whitespace characters of `s`. */
  function TrailingSpaces(s: string): (n: nat)
    ensures n <= |s|
    ensures forall k :: |s| - n <= k < |s| ==> IsSpace(s[k])
    ensures n < |s| ==> !IsSpace(s[|s| - 1 - n])
  {
    if s != [] && IsSpace(s[|s| - 1]) then 1 + TrailingSpaces(s[..|s| - 1]) else 0
  }

  /** str.lstrip() without arguments. */
  function StripStart(s: string): string
  {
    s[LeadingSpaces(s)..]
  }

  /** str.rstrip() without arguments. */
  function StripEnd(s: string): string
  {
    s[..|s| - TrailingSpaces(s)]
  }

  /** str.strip() without arguments: the string is blank exactly when nothing is left. */
  function Strip(s: string): (r: string)
    ensures r == [] <==> AllSpace(s)
    ensures r != [] ==> !IsSpace(r[0]) && !IsSpace(r[|r| - 1])
  {
    var a := LeadingSpaces(s);
    var t := StripStart(s);
    var n := TrailingSpaces(t);
    assert n < |t| ==> t[0] == s[a] && t[|t| - 1 - n] == s[|s| - 1 - n];
    assert a == |s| ==> AllSpace(s);
    StripEnd(t)
  }

  /** strip() keeps the text between the leading and the trailing whitespace. */
  lemma StripIsMiddle(s: string, r: string, a: nat)
    requires r == Strip(s) && a == LeadingSpaces(s)
    ensures a + |r| <= |s| && r == s[a..a + |r|] && AllSpace(s[a + |r|..])
  {
    var t := StripStart(s);
    assert r == t[..|t| - TrailingSpaces(t)];
    SliceOfSuffix(s, t, r, a);
  }

  /** A prefix `r` of the suffix s[a..], followed there only by whitespace, is a slice of `s` followed only by whitespace. */
  lemma SliceOfSuffix(s: string, t: string, r: string, a: nat)
    requires a <= |s| && t == s[a..] && |r| <= |t| && r == t[..|r|]
    requires forall k :: |r| <= k < |t| ==> IsSpace(t[k])
    ensures a + |r| <= |s| && r == s[a..a + |r|] && AllSpace(s[a + |r|..])
  {
    var u := s[a + |r|..];
    forall k | 0 <= k < |u| ensures IsSpace(u[k]) {
      assert u[k] == t[|r| + k];
    }
  }

  /** ''.join(lines) */
  function Join(lines: seq<string>): string
  {
    if lines == [] then "" else Join(lines[..|lines| - 1]) + lines[|lines| - 1]
  }

  // ---------------------------------------------------------------------------
  // _make_version_re and the three line patterns

  /** s.lstrip('v'): every leading 'v' is removed. */
  function StripLeadingV(s: string): (r: string)
    ensures |r| <= |s| && r == s[|s| - |r|..]
    ensures forall k :: 0 <= k < |s| - |r| ==> s[k] == 'v'
    ensures r == [] || r[0] != 'v'
  {
    if s != [] && s[0] == 'v' then StripLeadingV(s[1..]) else s
  }

  const VersionWord: string := " Version "

  /** The line starts with `=+ Version `. The run of '=' is maximal, since '=' cannot match the space after it. */
  predicate IsHeader(line: string)
  {
    var n := LeadingRun(line, '=');
    n >= 1 && |line| >= n + |VersionWord| && line[n..n + |VersionWord|] == VersionWord
  }

  /** What follows `=+ Version ` on a header line. */
  function HeaderTail(line: string): string
    requires IsHeader(line)
  {
    line[LeadingRun(line, '=') + |VersionWord|..]
  }

  /** `$` without MULTILINE, at the point where `rest` begins. */
  predicate AtEnd(rest: string)
  {
    rest == "" || rest == "\n"
  }

  /** `.*$`: `.` stops at "\n", so what is left holds no "\n" except a final one. */
  predicate DotStarAtEnd(rest: string)
  {
    forall k :: 0 <= k < |rest| - 1 ==> rest[k] != '\n'
  }

  /**
   * `^=+ Version <pattern>$` where <pattern> is the version with its leading 'v's stripped
   * and each '.' escaped, so that it matches itself literally.
   */
  predicate IsTargetHeader(line: string, pattern: string)
    ensures IsTargetHeader(line, pattern) ==> |line| >= 1 + |VersionWord| + |pattern| && line[0] == '='
  {
    IsHeader(line) &&
    var t := HeaderTail(line);
    |t| >= |pattern| && t[..|pattern|] == pattern && AtEnd(t[|pattern|..])
  }

  /** `^=+ Version [0-9.]+$` */
  predicate IsAnyVersionHeader(line: string)
    ensures IsAnyVersionHeader(line) ==> |line| >= 2 + |VersionWord| && line[0] == '='
  {
    IsHeader(line) &&
    var t := HeaderTail(line);
    var d := LeadingDigits(t);
    d >= 1 && AtEnd(t[d..])
  }

  /** `^\s*\*+\s.*$`. Whitespace and '*' are disjoint, so `\s*` and `\*+` both take maximal runs. */
  predicate IsBullet(line: string)
    ensures IsBullet(line) ==> LeadingSpaces(line) < |line| && line[LeadingSpaces(line)] == '*' && !AllSpace(line)
  {
    var i := LeadingSpaces(line);
    var j := i + LeadingRun(line[i..], '*');
    assert j > i ==> line[i..][0] == line[i];
    i < j < |line| && IsSpace(line[j]) && DotStarAtEnd(line[j + 1..])
  }

  // ---------------------------------------------------------------------------
  // The scanner

  /** _parse_line as a transition: what one line does in each state. */
  function Transition(pattern: string, st: State, line: string): (r: Step)
    ensures r.appended == [] || r.appended == [line] || r.appended == [line, "\n"]
    ensures st != Init ==> r.state != Init
    ensures st == End ==> r == Step(End, [])
    ensures r.state == Init <==> st == Init && !IsTargetHeader(line, pattern)
    ensures r.appended != [] && st != Init ==> r.appended == [line] && r.state == All
    ensures st == Bullet && !IsBullet(line) && !IsAnyVersionHeader(line) ==> r == Step(Bullet, [])
  {
    match st
    case Init =>
      if IsTargetHeader(line, pattern) then Step(Bullet, [line, "\n"]) else Step(Init, [])
    case Bullet =>
      var afterBullet := if IsBullet(line) then Step(All, [line]) else Step(Bullet, []);
      if IsAnyVersionHeader(line) then Step(End, afterBullet.appended) else afterBullet
    case All =>
      if Strip(line) == "" then Step(Bullet, []) else Step(All, [line])
    case End =>
      Step(End, [])
  }

  /**
   * The for loop of feed over `lines`: lines are parsed one by one, and the loop stops, without
   * reading further, as soon as the state is End.
   */
  function Run(pattern: string, st: State, lines: seq<string>): (r: Step)
    ensures |r.appended| <= |lines| + (if st == Init then 1 else 0)
    decreases |lines|
  {
    if lines == [] || st == End then Step(st, [])
    else
      var first := Transition(pattern, st, lines[0]);
      var rest := Run(pattern, first.state, lines[1..]);
      Step(rest.state, first.appended + rest.appended)
  }

  /** The changelog property: the accumulated lines joined and stripped. */
  function Text(accumulated: seq<string>): (r: string)
    ensures r == "" <==> AllSpace(Join(accumulated))
  {
    Strip(Join(accumulated))
  }

  /**
   * A fresh parser for `version`, fed with one document; its changelog property. It is empty
   * exactly when no line is the target header: a leading 'v' makes no difference.
   */
  function Extract(version: string, lines: seq<string>): (r: string)
    ensures r == "" <==> forall k :: 0 <= k < |lines| ==> !IsTargetHeader(lines[k], StripLeadingV(version))
  {
    var pattern := StripLeadingV(version);
    var run := Run(pattern, Init, lines);
    InitUntilHeader(pattern, lines);
    RunKeepsConsistent(pattern, Init, [], lines);
    TextEmptyIffInit(pattern, run.state, run.appended);
    Text(run.appended)
  }

  /** The object invariant of ChangelogParser, on the state and the accumulator. */
  ghost predicate Consistent(pattern: string, st: State, accumulated: seq<string>)
  {
    (st == Init <==> accumulated == []) &&
    (st != Init ==> |accumulated| >= 2 && IsTargetHeader(accumulated[0], pattern) && accumulated[1] == "\n")
  }

  class ChangelogParser {
    const pattern: string
    var state: State
    var changelog: seq<string>

    ghost predicate Valid()
      reads this
    {
      Consistent(pattern, state, changelog)
    }

    constructor (version: string)
      ensures pattern == StripLeadingV(version)
      ensures state == Init && changelog == []
      ensures Valid()
    {
      pattern := StripLeadingV(version);
      changelog := [];
      state := Init;
      assert Consistent(StripLeadingV(version), Init, []);
    }

    /**
     * feed(path): `files` stands for the file system. An empty path does nothing; a path with
     * no file behind it is the error of open(), reported as ok == false, with nothing changed.
     */
    method Feed(path: string, files: map<string, seq<string>>) returns (ok: bool)
      requires Valid()
      modifies this
      ensures Valid()
      ensures ok <==> path == "" || path in files
      ensures path == "" || path !in files ==> state == old(state) && changelog == old(changelog)
      ensures path != "" && path in files ==>
        state == Run(pattern, old(state), files[path]).state &&
        changelog == old(changelog) + Run(pattern, old(state), files[path]).appended
    {
      if path == "" {
        return true;
      }
      if path !in files {
        return false;
      }
      ok := true;
      var lines := files[path];
      ghost var st0, acc0 := state, changelog;
      assert lines[0..] == lines;
      for i := 0 to |lines|
        invariant Valid()
        invariant Run(pattern, state, lines[i..]).state == Run(pattern, st0, lines).state
        invariant changelog + Run(pattern, state, lines[i..]).appended == acc0 + Run(pattern, st0, lines).appended
      {
        if state != End {
          ghost var before, t := changelog, Transition(pattern, state, lines[i]);
          ghost var rest := Run(pattern, t.state, lines[i + 1..]);
          assert lines[i..][0] == lines[i] && lines[i..][1..] == lines[i + 1..];
          assert Run(pattern, state, lines[i..]) == Step(rest.state, t.appended + rest.appended);
          ParseLine(lines[i]);
          AppendAssoc(before, t.appended, rest.appended);
        } else {
          break;
        }
      }
    }

    /** _parse_line(line) */
    method ParseLine(line: string)
      requires Valid()
      modifies this
      ensures Valid()
      ensures state == Transition(pattern, old(state), line).state
      ensures changelog == old(changelog) + Transition(pattern, old(state), line).appended
    {
      StepKeepsConsistent(pattern, state, changelog, line);
      if state == Init {
        if IsTargetHeader(line, pattern) {
          AppendAssoc(changelog, [line], ["\n"]);
          changelog := changelog + [line];
          changelog := changelog + ["\n"];
          state := Bullet;
        }
      } else if state == Bullet {
        if IsBullet(line) {
          changelog := changelog + [line];
          state := All;
        }
        if IsAnyVersionHeader(line) {
          state := End;
        }
      } else if state == All {
        if Strip(line) == "" {
          state := Bullet;
        } else {
          changelog := changelog + [line];
        }
      }
    }

    /** The changelog property. It is empty exactly when no target header has been seen. */
    function Changelog(): (r: string)
      reads this
      ensures Valid() ==> (r == "" <==> state == Init)
    {
      TextEmptyIffInit(pattern, state, changelog);
      Text(changelog)
    }
  }

  // ---------------------------------------------------------------------------
  // Lemmas

  /** Feeding `a` and then `b` is feeding `a + b`: the state and the accumulator carry over between documents. */
  lemma {:induction false} RunConcat(pattern: string, st: State, a: seq<string>, b: seq<string>)
    ensures var first := Run(pattern, st, a);
            var second := Run(pattern, first.state, b);
            Run(pattern, st, a + b) == Step(second.state, first.appended + second.appended)
    decreases |a|
  {
    if a == [] {
      assert a + b == b;
    } else if st != End {
      var t := Transition(pattern, st, a[0]);
      assert (a + b)[0] == a[0] && (a + b)[1..] == a[1..] + b;
      RunConcat(pattern, t.state, a[1..], b);
      var first := Run(pattern, t.state, a[1..]);
      var second := Run(pattern, first.state, b);
      assert Run(pattern, st, a) == Step(first.state, t.appended + first.appended);
      assert Run(pattern, st, a + b) == Step(second.state, t.appended + (first.appended + second.appended));
      AppendAssoc(t.appended, first.appended, second.appended);
    } else {
      assert Run(pattern, st, a) == Step(End, []) && Run(pattern, st, a + b) == Step(End, []);
    }
  }

  lemma AppendAssoc(x: seq<string>, y: seq<string>, z: seq<string>)
    ensures x + (y + z) == (x + y) + z
  {
  }

  /** Once the state is End, feed reads no further line: nothing is kept and the state stays End. */
  lemma EndStopsReading(pattern: string, lines: seq<string>)
    ensures Run(pattern, End, lines) == Step(End, [])
  {
  }

  /** The state never returns to Init. */
  lemma {:induction false} NeverBackToInit(pattern: string, st: State, lines: seq<string>)
    requires st != Init
    ensures Run(pattern, st, lines).state != Init
    decreases |lines|
  {
    if lines != [] && st != End {
      NeverBackToInit(pattern, Transition(pattern, st, lines[0]).state, lines[1..]);
    }
  }

  /** From Init, the parser stays in Init, having kept nothing, exactly while no target header has been read. */
  lemma {:induction false} InitUntilHeader(pattern: string, lines: seq<string>)
    ensures Run(pattern, Init, lines).state == Init <==> forall k :: 0 <= k < |lines| ==> !IsTargetHeader(lines[k], pattern)
    ensures Run(pattern, Init, lines).state == Init ==> Run(pattern, Init, lines).appended == []
    decreases |lines|
  {
    if lines != [] {
      if IsTargetHeader(lines[0], pattern) {
        NeverBackToInit(pattern, Bullet, lines[1..]);
      } else {
        InitUntilHeader(pattern, lines[1..]);
        assert forall k :: 0 < k < |lines| ==> lines[k] == lines[1..][k - 1];
      }
    }
  }

  /**
   * Everything before the first target header is ignored; that header is kept, followed by
   * one "\n", and the rest of the document is scanned from Bullet.
   */
  lemma {:induction false} FirstHeaderOpensSection(pattern: string, lines: seq<string>, k: nat)
    requires k < |lines| && IsTargetHeader(lines[k], pattern)
    requires forall j :: 0 <= j < k ==> !IsTargetHeader(lines[j], pattern)
    ensures var rest := Run(pattern, Bullet, lines[k + 1..]);
            Run(pattern, Init, lines) == Step(rest.state, [lines[k], "\n"] + rest.appended)
    decreases k
  {
    if k > 0 {
      var tail := lines[1..];
      assert tail[k - 1] == lines[k] && tail[k..] == lines[k + 1..];
      assert forall j :: 0 <= j < k - 1 ==> tail[j] == lines[j + 1];
      FirstHeaderOpensSection(pattern, tail, k - 1);
    }
  }

  /** A bullet line is never a version header, so in Bullet at most one of the two checks fires. */
  lemma BulletIsNoHeader(line: string)
    requires IsBullet(line)
    ensures !IsHeader(line) && !IsAnyVersionHeader(line)
  {
    var i := LeadingSpaces(line);
    if i == 0 {
      assert line[i..][0] == '*';
    }
  }

  /** A header line starts with '=', so it is never blank. */
  lemma HeaderIsNotBlank(line: string)
    requires IsHeader(line)
    ensures !AllSpace(line)
  {
    assert line[0] == '=';
  }

  lemma {:induction false} JoinConcat(a: seq<string>, b: seq<string>)
    ensures Join(a + b) == Join(a) + Join(b)
    decreases |b|
  {
    if b == [] {
      assert a + b == a;
    } else {
      var n := |b|;
      assert (a + b)[..|a + b| - 1] == a + b[..n - 1];
      JoinConcat(a, b[..n - 1]);
    }
  }

  /** The changelog text is empty exactly when the parser is still in Init. */
  lemma TextEmptyIffInit(pattern: string, st: State, accumulated: seq<string>)
    ensures Consistent(pattern, st, accumulated) ==> (Text(accumulated) == "" <==> st == Init)
  {
    if Consistent(pattern, st, accumulated) && st != Init {
      var header := accumulated[0];
      JoinConcat([header], accumulated[1..]);
      assert [header] + accumulated[1..] == accumulated;
      assert Join([header]) == header by {
        assert [header][..0] == [];
      }
      HeaderIsNotBlank(header);
      var k :| 0 <= k < |header| && !IsSpace(header[k]);
      assert Join(accumulated)[k] == header[k];
    }
  }

  /** One line keeps the parser consistent: the section's header stays first, followed by "\n". */
  lemma StepKeepsConsistent(pattern: string, st: State, acc: seq<string>, line: string)
    requires Consistent(pattern, st, acc)
    ensures var t := Transition(pattern, st, line); Consistent(pattern, t.state, acc + t.appended)
  {
    var t := Transition(pattern, st, line);
    if st == Init && t.state != Init {
      assert acc + t.appended == t.appended;
    } else if t.appended != [] {
      assert (acc + t.appended)[..2] == acc[..2];
    }
  }

  /** Running a consistent parser over any lines leaves it consistent. */
  lemma {:induction false} RunKeepsConsistent(pattern: string, st: State, acc: seq<string>, lines: seq<string>)
    requires Consistent(pattern, st, acc)
    ensures var r := Run(pattern, st, lines); Consistent(pattern, r.state, acc + r.appended)
    decreases |lines|
  {
    if lines != [] && st != End {
      var first := Transition(pattern, st, lines[0]);
      StepKeepsConsistent(pattern, st, acc, lines[0]);
      RunKeepsConsistent(pattern, first.state, acc + first.appended, lines[1..]);
    }
  }

  /** Any number of leading 'v's select the same section as none. */
  lemma {:induction false} LeadingVIgnored(vs: string, version: string)
    requires forall k :: 0 <= k < |vs| ==> vs[k] == 'v'
    ensures StripLeadingV(vs + version) == StripLeadingV(version)
  {
    if vs != [] {
      var s := vs + version;
      assert s[0] == 'v' && s[1..] == vs[1..] + version;
      LeadingVIgnored(vs[1..], version);
    } else {
      assert vs + version == version;
    }
  }

  /** A header's tail without its line terminator. */
  function TailLength(t: string): nat
  {
    if |t| > 0 && t[|t| - 1] == '\n' then |t| - 1 else |t|
  }

  /** A version without "\n" that matches a header's tail is that tail without its terminator. */
  lemma PatternIsTail(t: string, a: string)
    requires |t| >= |a| && t[..|a|] == a && AtEnd(t[|a|..])
    requires forall k :: 0 <= k < |a| ==> a[k] != '\n'
    ensures |a| == TailLength(t) <= |t| && a == t[..TailLength(t)]
  {
    if t[|a|..] == "" {
      if |t| > 0 {
        assert t[|t| - 1] == a[|t| - 1];
      }
    } else {
      assert t[|a|] == '\n';
    }
  }

  /** Version matching is exact: one header line names one version (a version has no "\n" of its own). */
  lemma TargetHeaderNamesOneVersion(line: string, a: string, b: string)
    requires IsTargetHeader(line, a) && IsTargetHeader(line, b)
    requires forall k :: 0 <= k < |a| ==> a[k] != '\n'
    requires forall k :: 0 <= k < |b| ==> b[k] != '\n'
    ensures a == b
  {
    PatternIsTail(HeaderTail(line), a);
    PatternIsTail(HeaderTail(line), b);
  }

  lemma HeaderLine(tail: string)
    ensures IsHeader("===== Version " + tail) && HeaderTail("===== Version " + tail) == tail
  {
    var s := "===== Version " + tail;
    assert s[5] == ' ';
    assert forall k :: 0 <= k < 5 ==> s[k] == '=';
    assert s[5..14] == VersionWord;
    assert s[14..] == tail;
  }

  lemma BulletLine(text: string)
    requires text != [] && forall k :: 0 <= k < |text| - 1 ==> text[k] != '\n'
    ensures IsBullet("* " + text) && !IsHeader("* " + text)
  {
    var s := "* " + text;
    assert LeadingSpaces(s) == 0;
    assert s[0..][1] == ' ';
    assert LeadingRun(s[0..], '*') == 1;
    assert s[2..] == text;
  }
  lemma BlankLine(e: string)
    requires AllSpace(e)
    ensures Strip(e) == "" && !IsBullet(e)
  {
    assert LeadingSpaces(e) == |e|;
  }

  /** In Bullet, a bullet line is kept and opens an item (state All). */
  lemma BulletOpensItem(p: string, b: string, rest: seq<string>)
    requires IsBullet(b)
    ensures var r := Run(p, All, rest); Run(p, Bullet, [b] + rest) == Step(r.state, [b] + r.appended)
  {
    BulletIsNoHeader(b);
    assert ([b] + rest)[1..] == rest;
  }

  /** In All, a blank line closes the item (state Bullet) and is not kept. */
  lemma BlankClosesItem(p: string, e: string, rest: seq<string>)
    requires AllSpace(e)
    ensures Run(p, All, [e] + rest) == Run(p, Bullet, rest)
  {
    BlankLine(e);
    assert ([e] + rest)[1..] == rest;
  }

  /** In All, any other line is kept verbatim: continuation text, and even a version header. */
  lemma LineContinuesItem(p: string, c: string, rest: seq<string>)
    requires !AllSpace(c)
    ensures var r := Run(p, All, rest); Run(p, All, [c] + rest) == Step(r.state, [c] + r.appended)
  {
    assert Strip(c) != "";
    assert ([c] + rest)[1..] == rest;
  }

  /** In Bullet, a line that is neither a bullet nor a version header is ignored. */
  lemma ProseIgnoredInBullet(p: string, l: string, rest: seq<string>)
    requires !IsBullet(l) && !IsAnyVersionHeader(l)
    ensures Run(p, Bullet, [l] + rest) == Run(p, Bullet, rest)
  {
    assert ([l] + rest)[1..] == rest;
  }

  /** In Bullet, any version header ends the section and is not kept; nothing after it is read. */
  lemma HeaderEndsSection(p: string, h: string, rest: seq<string>)
    requires IsAnyVersionHeader(h)
    ensures Run(p, Bullet, [h] + rest) == Step(End, [])
  {
    assert !IsBullet(h) by { if IsBullet(h) { BulletIsNoHeader(h); } }
    assert ([h] + rest)[1..] == rest;
  }

  lemma ExampleRun(p: string, lines: seq<string>)
    requires |lines| == 8 && lines[2] == lines[5]
    requires var h, b1, e, b2, c, h1 := lines[0], lines[1], lines[2], lines[3], lines[4], lines[6];
      IsTargetHeader(h, p) && IsBullet(b1) && IsBullet(b2) && AllSpace(e) && !AllSpace(c) && IsAnyVersionHeader(h1)
    ensures Run(p, Init, lines) == Step(End, [lines[0], "\n", lines[1], lines[3], lines[4]])
  {
    ExampleSecondItem(p, lines);
    ExampleFirstItem(p, lines);
    ExampleOpening(p, lines, [lines[1], lines[3], lines[4]]);
    ConcatFive(lines[0], "\n", lines[1], lines[3], lines[4]);
  }

  lemma ConcatFive<T>(a: T, b: T, c: T, d: T, e: T)
    ensures [a, b] + [c, d, e] == [a, b, c, d, e]
  {
  }

  /** The example's first line is the target header, which opens the section. */
  lemma ExampleOpening(p: string, lines: seq<string>, tail: seq<string>)
    requires lines != [] && IsTargetHeader(lines[0], p) && Run(p, Bullet, lines[1..]) == Step(End, tail)
    ensures Run(p, Init, lines) == Step(End, [lines[0], "\n"] + tail)
  {
    assert lines == [lines[0]] + lines[1..];
    TargetHeaderOpensSection(p, lines[0], lines[1..]);
  }

  /** The example from its fifth line on: a continuation line, a blank line and the next header. */
  lemma ExampleSecondItem(p: string, lines: seq<string>)
    requires |lines| == 8 && AllSpace(lines[5]) && !AllSpace(lines[4]) && IsAnyVersionHeader(lines[6])
    ensures Run(p, All, lines[4..]) == Step(End, [lines[4]])
  {
    Unfold(lines, 6);
    HeaderEndsSection(p, lines[6], lines[7..]);
    Unfold(lines, 5);
    BlankClosesItem(p, lines[5], lines[6..]);
    Unfold(lines, 4);
    LineContinuesItem(p, lines[4], lines[5..]);
  }

  /** The example from its second line on: two items with a blank line between them. */
  lemma ExampleFirstItem(p: string, lines: seq<string>)
    requires |lines| == 8 && IsBullet(lines[1]) && AllSpace(lines[2]) && IsBullet(lines[3])
    requires Run(p, All, lines[4..]) == Step(End, [lines[4]])
    ensures Run(p, Bullet, lines[1..]) == Step(End, [lines[1], lines[3], lines[4]])
  {
    Unfold(lines, 3);
    BulletOpensItem(p, lines[3], lines[4..]);
    Unfold(lines, 2);
    BlankClosesItem(p, lines[2], lines[3..]);
    Unfold(lines, 1);
    BulletOpensItem(p, lines[1], lines[2..]);
  }

  /** A suffix of a document is its first line followed by the next suffix. */
  lemma Unfold(lines: seq<string>, k: nat)
    requires k < |lines|
    ensures lines[k..] == [lines[k]] + lines[k + 1..]
  {
  }

  /** In Init, the target header is kept, followed by "\n", and the scan goes on in Bullet. */
  lemma TargetHeaderOpensSection(p: string, h: string, rest: seq<string>)
    requires IsTargetHeader(h, p)
    ensures var r := Run(p, Bullet, rest); Run(p, Init, [h] + rest) == Step(r.state, [h, "\n"] + r.appended)
  {
    assert ([h] + rest)[1..] == rest;
  }

  lemma StripFinalNewline(x: string)
    requires x != [] && !IsSpace(x[0]) && !IsSpace(x[|x| - 1])
    ensures Strip(x + "\n") == x
  {
    var s := x + "\n";
    assert LeadingSpaces(s) == 0 && s[0..] == s;
    assert TrailingSpaces(s) == 1 by { assert s[..|s| - 1] == x; }
  }

  /**
   * The worked example: the section for "v2.0" is its header, the "\n" after it, and its
   * two items, the second with its continuation line; the blank lines are dropped and the
   * "1.9" header ends the section. Strip removes the final "\n".
   */
  lemma ExtractExample(version: string, lines: seq<string>)
    requires version == "v2.0"
    requires lines == ["===== Version 2.0\n", "* Added feature X\n", "\n", "* Fixed bug Y\n",
                       "  continuation text\n", "\n", "===== Version 1.9\n", "* Old entry\n"]
    ensures Extract(version, lines)
            == "===== Version 2.0\n" + "\n" + "* Added feature X\n" + "* Fixed bug Y\n" + "  continuation text"
  {
    ExampleVersion(version);
    ExampleHeaders(lines[0], lines[6], StripLeadingV(version));
    ExampleItems(lines[1], lines[2], lines[3], lines[4]);
    ExampleRun(StripLeadingV(version), lines);
    ExampleText(lines[0], lines[1], lines[3], lines[4]);
  }

  /** How each line of the worked example is classified. */
  lemma ExampleVersion(version: string)
    requires version == "v2.0"
    ensures StripLeadingV(version) == "2.0"
  {
    assert version[0] == 'v' && version[1..] == "2.0";
    var p := version[1..];
    assert StripLeadingV(p) == p by { assert p[0] == '2'; }
  }

  lemma ExampleHeaders(h: string, h1: string, p: string)
    requires h == "===== Version 2.0\n" && h1 == "===== Version 1.9\n" && p == "2.0"
    ensures IsTargetHeader(h, p) && IsAnyVersionHeader(h1)
  {
    var t, t1 := h[14..], h1[14..];
    assert t == p + "\n" && h == "===== Version " + t;
    ExampleHeader(h, t, p);
    assert t1 == "1.9\n" && h1 == "===== Version " + t1;
    ExampleAnyHeader(h1, t1);
  }

  lemma ExampleItems(b1: string, e: string, b2: string, c: string)
    requires b1 == "* Added feature X\n" && e == "\n" && b2 == "* Fixed bug Y\n" && c == "  continuation text\n"
    ensures IsBullet(b1) && AllSpace(e) && IsBullet(b2) && !AllSpace(c)
  {
    ExampleFirstBullet(b1);
    ExampleSecondBullet(b2);
    ExampleBlanks(e, c);
  }

  lemma ExampleFirstBullet(b: string)
    requires b == "* Added feature X\n"
    ensures IsBullet(b)
  {
    var t := b[2..];
    assert b == "* " + t && DotStarAtEnd(t);
    ExampleBullet(b, t);
  }

  lemma ExampleSecondBullet(b: string)
    requires b == "* Fixed bug Y\n"
    ensures IsBullet(b)
  {
    var t := b[2..];
    assert b == "* " + t && DotStarAtEnd(t);
    ExampleBullet(b, t);
  }

  lemma ExampleBlanks(e: string, c: string)
    requires e == "\n" && c == "  continuation text\n"
    ensures AllSpace(e) && !AllSpace(c)
  {
    assert e[0] == '\n';
    assert c[2] == 'c';
  }

  lemma ExampleHeader(h: string, tail: string, p: string)
    requires tail == p + "\n" && h == "===== Version " + tail
    ensures IsTargetHeader(h, p)
  {
    HeaderLine(tail);
    assert tail[..|p|] == p && tail[|p|..] == "\n";
  }

  lemma ExampleAnyHeader(h: string, tail: string)
    requires tail == "1.9\n" && h == "===== Version " + tail
    ensures IsAnyVersionHeader(h)
  {
    HeaderLine(tail);
    assert LeadingDigits(tail) == 3 by { assert tail[3] == '\n'; }
    assert tail[3..] == "\n";
  }

  lemma ExampleBullet(b: string, text: string)
    requires text != [] && DotStarAtEnd(text)
    requires b == "* " + text
    ensures IsBullet(b)
  {
    BulletLine(text);
  }

  lemma JoinSnoc(xs: seq<string>, x: string)
    ensures Join(xs + [x]) == Join(xs) + x
  {
    assert (xs + [x])[..|xs|] == xs;
  }

  lemma JoinFive(a: string, b: string, c: string, d: string, e: string)
    ensures Join([a, b, c, d, e]) == a + b + c + d + e
  {
    JoinSnoc([], a);
    assert [] + [a] == [a];
    JoinSnoc([a], b);
    assert [a] + [b] == [a, b];
    JoinSnoc([a, b], c);
    assert [a, b] + [c] == [a, b, c];
    JoinSnoc([a, b, c], d);
    assert [a, b, c] + [d] == [a, b, c, d];
    JoinSnoc([a, b, c, d], e);
    assert [a, b, c, d] + [e] == [a, b, c, d, e];
  }

  lemma ExampleText(h: string, b1: string, b2: string, c: string)
    requires h == "===== Version 2.0\n" && b1 == "* Added feature X\n" && b2 == "* Fixed bug Y\n"
    requires c == "  continuation text\n"
    ensures Text([h, "\n", b1, b2, c])
            == h + "\n" + b1 + b2 + "  continuation text"
  {
    var c0 := "  continuation text";
    assert c == c0 + "\n";
    var joined := h + "\n" + b1 + b2 + c0;
    JoinFive(h, "\n", b1, b2, c);
    assert h + "\n" + b1 + b2 + c == joined + "\n";
    assert joined[0] == h[0] == '=';
    assert joined[|joined| - 1] == c0[|c0| - 1] == 't';
    StripFinalNewline(joined);
  }
}
