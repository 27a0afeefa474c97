/**
 cmd/ci/files.go: a job log of bounded size that survives being closed and opened again. A file
 write that fails may leave a part of its text behind, which the code does not charge to the budget.
 */
module BoundedLog {
  function Max(a: int, b: int): int {
    if a > b then a else b
  }

  /** The first n characters, or all when there are fewer. */
  function First(s: string, n: int): (r: string)
    ensures r <= s && |r| == if |s| <= n then |s| else Max(0, n)
  {
    if n <= 0 then "" else if |s| <= n then s else s[..n]
  }

  /** `ok` is the outcome of the system call, `kept` how much of its text a failing write leaves behind. */
  datatype Event = Open(ok: bool) | Write(text: string, ok: bool, kept: nat) | Close

  class File {
    var content: string

    constructor ()
      ensures content == ""
    {
      content := "";
    }
  }

  class Log {
    const file: File
    var remaining: int
    var open: bool

    /** openLog on a file it could open and inspect. */
    constructor (file: File, limit: int)
      ensures this.file == file && open && remaining == Max(0, limit - |file.content|)
    {
      this.file := file;
      open := true;
      remaining := Max(0, limit - |file.content|);
    }

    /** `kept` is what a failing system call leaves in the file; the code assumes nothing. */
    method Write(text: string, ok: bool, kept: nat) returns (n: nat, failed: bool)
      requires remaining >= 0 && kept <= |First(text, remaining)|
      modifies this`remaining, file
      ensures failed <==> !(ok && open)
      ensures !failed ==>
        && n == |text| && remaining == old(remaining) - |First(text, old(remaining))| >= 0
        && file.content == old(file.content) + First(text, old(remaining))
      ensures failed ==>
        && n == 0 && remaining == old(remaining)
        && file.content == old(file.content) + if open then First(text, old(remaining))[..kept] else ""
    {
      n := |text|;
      var p := text;
      if |p| > remaining {
        p := p[..remaining];
      }
      assert p == First(text, remaining);
      if !open {
        return 0, true;
      }
      if !ok {
        file.content := file.content + p[..kept];
        return 0, true;
      }
      file.content := file.content + p;
      remaining := remaining - |p|;
      failed := false;
    }

    method Close()
      modifies this`open
      ensures !open
    {
      open := false;
    }
  }

  // ------------------------------------------------------------------
  // Any sequence of openings, writes and closings
  // ------------------------------------------------------------------

  /** `start`, `sent` and `left` account for the last opening: the size then, and what was offered or left since. */
  datatype State = State(content: string, remaining: nat, open: bool, start: nat, sent: nat, left: nat)

  function Next(s: State, e: Event, limit: int): State {
    match e
    case Open(ok) =>
      if ok then State.State(s.content, Max(0, limit - |s.content|), true, |s.content|, 0, 0) else s
    case Write(text, ok, kept) =>
      var p := First(text, s.remaining);
      if !s.open then s
      else if ok then s.(content := s.content + p, remaining := s.remaining - |p|, sent := s.sent + |text|)
      else s.(content := s.content + First(p, kept), left := s.left + |First(p, kept)|)
    case Close => s.(open := false)
  }

  function After(events: seq<Event>, limit: int): State {
    if events == [] then State.State("", Max(0, limit), false, 0, 0, 0)
    else Next(After(events[..|events| - 1], limit), events[|events| - 1], limit)
  }

  /** Whether the log is open after the events. */
  predicate IsOpen(events: seq<Event>) {
    events != [] &&
    var e := events[|events| - 1];
    match e
    case Open(ok) => ok || IsOpen(events[..|events| - 1])
    case Write(_, _, _) => IsOpen(events[..|events| - 1])
    case Close => false
  }

  /** The texts whose writes succeeded, one after another. */
  function Sent(events: seq<Event>): string {
    if events == [] then ""
    else
      var e, before := events[|events| - 1], events[..|events| - 1];
      Sent(before) + if e.Write? && e.ok && IsOpen(before) then e.text else ""
  }

  /** The lengths the writes reported, 0 with an error. */
  function Reported(events: seq<Event>): seq<nat> {
    if events == [] then []
    else
      var e, before := events[|events| - 1], events[..|events| - 1];
      Reported(before) + if e.Write? then [if e.ok && IsOpen(before) then |e.text| else 0] else []
  }

  predicate AllOrNothing(events: seq<Event>) {
    forall i | 0 <= i < |events| :: events[i].Write? && !events[i].ok ==> events[i].kept == 0
  }

  lemma FirstAppends(all: string, text: string, limit: int)
    ensures First(all, limit) + First(text, Max(0, limit - |First(all, limit)|)) == First(all + text, limit)
  {
    var n := |all|;
    if 0 < limit {
      if n <= limit && limit < n + |text| {
        assert (all + text)[..limit] == all + text[..limit - n];
      } else if limit < n {
        assert (all + text)[..limit] == all[..limit];
      }
    }
  }

  /** With all-or-nothing writes the file is always the first `limit` characters of what was written. */
  lemma {:induction false} CleanWritesFillUp(events: seq<Event>, limit: int)
    requires AllOrNothing(events)
    ensures
      var s := After(events, limit);
      && s.content == First(Sent(events), limit) && s.open == IsOpen(events)
      && (s.open || events == [] ==> s.remaining == Max(0, limit - |s.content|))
  {
    if events == [] {
    } else {
      var e, before := events[|events| - 1], events[..|events| - 1];
      CleanWritesFillUp(before, limit);
      assert e.Write? && !e.ok ==> e.kept == 0;
      if e.Write? && e.ok {
        FirstAppends(Sent(before), e.text, limit);
      }
    }
  }

  /** The objects do what the states say, and success reports the full length. */
  method Replay(limit: int, events: seq<Event>) returns (content: string, reported: seq<nat>)
    ensures content == After(events, limit).content
    ensures AllOrNothing(events) ==> content == First(Sent(events), limit)
    ensures reported == Reported(events)
  {
    var file := new File();
    var log := new Log(file, limit);
    log.Close();
    reported := [];
    for i := 0 to |events|
      invariant log.file == file && log.open == After(events[..i], limit).open == IsOpen(events[..i])
      invariant file.content == After(events[..i], limit).content
      invariant log.remaining == After(events[..i], limit).remaining
      invariant reported == Reported(events[..i])
    {
      assert events[..i + 1][..i] == events[..i];
      match events[i] {
        case Open(ok) =>
          if ok {
            log := new Log(file, limit);
          }
        case Write(text, ok, kept) =>
          var part := First(text, log.remaining);
          var n, failed := log.Write(text, ok, |First(part, kept)|);
          reported := reported + [n];
        case Close =>
          log.Close();
      }
    }
    assert events[..|events|] == events;
    content := file.content;
    if AllOrNothing(events) {
      CleanWritesFillUp(events, limit);
    }
  }

  // ------------------------------------------------------------------
  // How far failed writes can push the file beyond its limit
  // ------------------------------------------------------------------

  /** The budget of an opening is charged for what was sent, never for what failed writes left. */
  predicate Accounts(s: State, limit: int) {
    var budget := Max(0, limit - s.start);
    && s.remaining == Max(0, budget - s.sent)
    && |s.content| == s.start + s.left + (budget - s.remaining)
    && (s.left > 0 ==> budget > 0)
  }

  lemma {:induction false} AccountsHold(events: seq<Event>, limit: int)
    ensures Accounts(After(events, limit), limit)
  {
    if events == [] {
    } else {
      AccountsHold(events[..|events| - 1], limit);
    }
  }

  /** The most that the failed writes of one opening left behind. */
  function MostLeft(events: seq<Event>, limit: int): nat {
    if events == [] then 0 else Max(MostLeft(events[..|events| - 1], limit), After(events, limit).left)
  }

  /** Whatever fails, the file exceeds its limit by no more than the failed writes of one opening left. */
  lemma {:induction false} OverrunBound(events: seq<Event>, limit: int)
    ensures |After(events, limit).content| <= Max(0, limit) + MostLeft(events, limit)
    ensures After(events, limit).start <= Max(0, limit) + MostLeft(events, limit)
  {
    if events == [] {
    } else {
      OverrunBound(events[..|events| - 1], limit);
      AccountsHold(events, limit);
      AccountsHold(events[..|events| - 1], limit);
    }
  }

  /** Nothing was left since the last opening, or everything offered since then still fits. */
  predicate Fits(s: State, limit: int) {
    s.left == 0 || s.start + s.sent + s.left <= limit
  }

  predicate FitsAfter(events: seq<Event>, limit: int, k: nat)
    requires k <= |events|
  {
    Fits(After(events[..k], limit), limit)
  }

  /** The file stays within its limit exactly when it fits after every event. */
  lemma {:induction false} StaysWithinExactly(events: seq<Event>, limit: int)
    ensures |After(events, limit).content| <= Max(0, limit) <==>
      forall k | 0 <= k <= |events| :: FitsAfter(events, limit, k)
  {
    var n := |events|;
    assert events[..n] == events;
    if n == 0 {
      assert FitsAfter(events, limit, 0);
    } else {
      var before := events[..n - 1];
      StaysWithinExactly(before, limit);
      AccountsHold(events, limit);
      AccountsHold(before, limit);
      forall k | 0 <= k <= n - 1 ensures FitsAfter(events, limit, k) == FitsAfter(before, limit, k) {
        assert events[..k] == before[..k];
      }
      assert FitsAfter(events, limit, n) == Fits(After(events, limit), limit);
    }
  }

  /** The bound is met: one write that fails after leaving characters behind, then one that fills the budget. */
  method PartialFailureOverruns(limit: int, first: string, kept: nat, second: string) returns (content: string)
    requires 0 < limit <= |second| && kept <= |First(first, limit)|
    ensures |content| == limit + kept
  {
    var file := new File();
    var log := new Log(file, limit);
    var n, failed := log.Write(first, false, kept);
    n, failed := log.Write(second, true, 0);
    content := file.content;
  }
}
