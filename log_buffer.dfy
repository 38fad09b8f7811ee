/**
 * The process-local log ring of src/bookiebot/logging_config.py: a deque of
 * formatted log lines bounded at 2000 entries, from which `get_recent_logs`
 * reads the newest lines, optionally filtered by level and by a
 * case-insensitive substring.
 */
module LogBuffer {
  import opened Wrappers
  import opened PyText

  /** `deque(maxlen=2000)`. */
  const MaxLen: nat := 2000

  /** The last `n` elements of `xs` (all of them when there are fewer). */
  function Last<T>(xs: seq<T>, n: nat): (r: seq<T>)
    ensures |r| == if n < |xs| then n else |xs|
    ensures r == xs[|xs| - |r|..]
  {
    if n < |xs| then xs[|xs| - n..] else xs
  }

  /** `lines[-limit:]`: a positive limit keeps the newest `limit` lines, 0 keeps all, a negative one drops the oldest `-limit`. */
  function Tail(xs: seq<string>, limit: int): (r: seq<string>)
    ensures |r| <= |xs|
    ensures r == xs[|xs| - |r|..]
    ensures limit > 0 ==> |r| == if limit < |xs| then limit else |xs|
    ensures limit == 0 ==> r == xs
    ensures limit < 0 ==> |r| == if -limit < |xs| then |xs| + limit else 0
  {
    if limit > 0 then Last(xs, limit)
    else if limit == 0 then xs
    else if -limit < |xs| then xs[-limit..]
    else []
  }

  /** `[ln for ln in lines if keep(ln)]`. */
  function Keep(lines: seq<string>, keep: string -> bool): (r: seq<string>)
    ensures |r| <= |lines|
    ensures forall ln :: ln in r <==> ln in lines && keep(ln)
  {
    if lines == [] then []
    else
      var rest := Keep(lines[..|lines| - 1], keep);
      assert lines == lines[..|lines| - 1] + [lines[|lines| - 1]];
      if keep(lines[|lines| - 1]) then rest + [lines[|lines| - 1]] else rest
  }

  /** The text a JSON-formatted line holds for a record of that level. */
  function LevelTag(level: string): string {
    "\"level\": \"" + Upper(level) + "\""
  }

  /** An empty or absent level does not filter. */
  predicate LevelKeeps(level: Option<string>, ln: string) {
    level.None? || level.value == "" || Contains(ln, LevelTag(level.value))
  }

  /** An empty or absent needle does not filter. */
  predicate NeedleKeeps(contains: Option<string>, ln: string) {
    contains.None? || contains.value == "" || Contains(Lower(ln), Lower(contains.value))
  }

  /** The lines that pass both filters, oldest first. */
  function Filtered(lines: seq<string>, level: Option<string>, contains: Option<string>): (r: seq<string>)
    ensures forall ln :: ln in r <==> ln in lines && LevelKeeps(level, ln) && NeedleKeeps(contains, ln)
    ensures |r| <= |lines|
  {
    Keep(Keep(lines, ln => LevelKeeps(level, ln)), ln => NeedleKeeps(contains, ln))
  }

  /**
   * The comprehension's meaning: a single line is kept exactly when it passes,
   * and keeping distributes over concatenation, so the kept lines are the
   * passing lines in their original order, each as often as it occurs.
   */
  lemma {:induction false} KeepConcat(a: seq<string>, b: seq<string>, keep: string -> bool)
    ensures Keep(a + b, keep) == Keep(a, keep) + Keep(b, keep)
    decreases |b|
  {
    if b == [] {
      assert a + b == a;
    } else {
      var init, x := b[..|b| - 1], b[|b| - 1];
      assert (a + b)[..|a + b| - 1] == a + init && (a + b)[|a + b| - 1] == x;
      KeepConcat(a, init, keep);
    }
  }

  lemma KeepOne(x: string, keep: string -> bool)
    ensures Keep([x], keep) == if keep(x) then [x] else []
  {
    assert [x][..0] == [];
  }

  /** Both filters together: the lines that pass both, in order, each as often as it occurs. */
  lemma FilteredConcat(a: seq<string>, b: seq<string>, x: string, level: Option<string>, contains: Option<string>)
    ensures Filtered(a + b, level, contains) == Filtered(a, level, contains) + Filtered(b, level, contains)
    ensures Filtered([x], level, contains) == if LevelKeeps(level, x) && NeedleKeeps(contains, x) then [x] else []
  {
    var p := ln => LevelKeeps(level, ln);
    var q := ln => NeedleKeeps(contains, ln);
    KeepConcat(a, b, p);
    KeepConcat(Keep(a, p), Keep(b, p), q);
    KeepOne(x, p);
    KeepOne(x, q);
    assert Keep([], q) == [];
  }

  /** Without filters every line passes. */
  lemma {:induction false} KeepAll(lines: seq<string>, keep: string -> bool)
    requires forall ln :: keep(ln)
    ensures Keep(lines, keep) == lines
  {
    if lines != [] {
      KeepAll(lines[..|lines| - 1], keep);
      assert lines == lines[..|lines| - 1] + [lines[|lines| - 1]];
    }
  }

  /** Filters that agree on every line keep the same lines. */
  lemma {:induction false} KeepSame(lines: seq<string>, p: string -> bool, q: string -> bool)
    requires forall ln :: p(ln) == q(ln)
    ensures Keep(lines, p) == Keep(lines, q)
  {
    if lines != [] {
      KeepSame(lines[..|lines| - 1], p, q);
    }
  }

  /** The buffer after appending each message in turn. */
  function AppendAll(lines: seq<string>, msgs: seq<string>): seq<string>
    decreases |msgs|
  {
    if msgs == [] then lines else AppendAll(Last(lines + [msgs[0]], MaxLen), msgs[1..])
  }

  /** However many lines are logged, the buffer holds the newest 2000 of them, oldest first. */
  lemma {:induction false} AppendAllKeepsNewest(lines: seq<string>, msgs: seq<string>)
    requires |lines| <= MaxLen
    ensures AppendAll(lines, msgs) == Last(lines + msgs, MaxLen)
    decreases |msgs|
  {
    if msgs != [] {
      var next := Last(lines + [msgs[0]], MaxLen);
      AppendAllKeepsNewest(next, msgs[1..]);
      LastConcat(lines + [msgs[0]], msgs[1..], MaxLen);
      assert lines + [msgs[0]] + msgs[1..] == lines + msgs;
    }
  }

  /** Keeping the last `n` before appending more changes nothing about the last `n` after. */
  lemma {:induction false} LastConcat(xs: seq<string>, ys: seq<string>, n: nat)
    ensures Last(Last(xs, n) + ys, n) == Last(xs + ys, n)
  {
    var k := Last(xs, n);
    if |xs| > n {
      var p := xs[..|xs| - n];
      assert xs + ys == p + (k + ys);
      LastOfLonger(p, k + ys, n);
    }
  }

  /** The last `n` of a sequence are the last `n` of any suffix at least `n` long. */
  lemma LastOfLonger(p: seq<string>, b: seq<string>, n: nat)
    requires |b| >= n
    ensures Last(p + b, n) == Last(b, n)
  {
    assert (p + b)[|p + b| - n..] == b[|b| - n..];
  }

  /** `RING_BUFFER` with the handler that appends to it, and `get_recent_logs`. */
  class LogRing {
    var lines: seq<string>

    ghost predicate Valid()
      reads this
    {
      |lines| <= MaxLen
    }

    constructor()
      ensures Valid() && lines == []
    {
      lines := [];
    }

    /** `RING_BUFFER.append(msg)`: the message becomes the newest line; a full buffer drops its oldest. */
    method Append(msg: string)
      requires Valid()
      modifies this
      ensures Valid()
      ensures lines == Last(old(lines) + [msg], MaxLen)
      ensures lines[|lines| - 1] == msg
    {
      if |lines| == MaxLen {
        lines := lines[1..] + [msg];
      } else {
        lines := lines + [msg];
      }
    }

    /** `get_recent_logs(limit, level, contains)`. */
    function Recent(limit: int, level: Option<string>, contains: Option<string>): (r: seq<string>)
      reads this
      ensures forall ln :: ln in r ==> ln in lines && LevelKeeps(level, ln) && NeedleKeeps(contains, ln)
      ensures |r| <= |Filtered(lines, level, contains)|
      ensures r == Filtered(lines, level, contains)[|Filtered(lines, level, contains)| - |r|..]
      ensures limit > 0 ==> |r| == if limit < |Filtered(lines, level, contains)| then limit else |Filtered(lines, level, contains)|
      ensures limit == 0 ==> forall ln :: ln in r <==> ln in lines && LevelKeeps(level, ln) && NeedleKeeps(contains, ln)
    {
      Tail(Filtered(lines, level, contains), limit)
    }
  }

  /** With no filters and a positive limit the reply is the newest `limit` lines, oldest first. */
  lemma UnfilteredTail(ring: LogRing, limit: int)
    requires limit > 0
    ensures ring.Recent(limit, None, None) == Last(ring.lines, limit)
  {
    KeepAll(ring.lines, ln => LevelKeeps(None, ln));
    KeepAll(ring.lines, ln => NeedleKeeps(None, ln));
  }

  /** The level filter matches the upper-cased level, so "error" and "ERROR" select the same lines. */
  lemma LevelCaseless(ring: LogRing, limit: int, a: string, b: string, contains: Option<string>)
    requires Upper(a) == Upper(b)
    ensures ring.Recent(limit, Some(a), contains) == ring.Recent(limit, Some(b), contains)
  {
    assert LevelTag(a) == LevelTag(b);
    KeepSame(ring.lines, ln => LevelKeeps(Some(a), ln), ln => LevelKeeps(Some(b), ln));
  }
}
