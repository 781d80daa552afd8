/** How far "at most one submission" reaches: exactly until a live attempt is written off by a
    failed review or a failure callback (internal/repository/delivery_pipeline_repo.go:176-272,
    331-360). */
module SecondSubmissions {
  import opened EmailDomain
  import opened EmailRows
  import opened SendProtocol

  ghost predicate Steps(ss: seq<State>, ls: seq<Label>) {
    && |ss| == |ls| + 1
    && forall i | 0 <= i < |ls| :: Enabled(ss[i], ls[i]) && ss[i + 1] == Apply(ss[i], ls[i])
  }

  lemma StepsCompose(ss: seq<State>, ls: seq<Label>, ts: seq<State>, ms: seq<Label>)
    requires Steps(ss, ls) && Steps(ts, ms) && ss[|ls|] == ts[0]
    ensures Steps(ss + ts[1..], ls + ms)
  {
    var all := ss + ts[1..];
    forall i | 0 <= i < |ls + ms|
      ensures Enabled(all[i], (ls + ms)[i]) && all[i + 1] == Apply(all[i], (ls + ms)[i])
    {
      if i >= |ls| {
        assert all[i] == ts[i - |ls|] && all[i + 1] == ts[i - |ls| + 1];
      }
    }
  }

  /** A run claims the row and starts to send, from any state in which it is due. */
  lemma ClaimAndStart(s: State, c: Claim) returns (ss: seq<State>)
    requires c.attempt !in s.used && c.fence !in s.used && c.attempt != c.fence
    requires s.row.status == Queued && s.row.state == NoAttempt
    ensures Steps(ss, [Mint(c), Issue(c, ClaimAttempt(c), Answered), Issue(c, StartSend(c), Answered)])
    ensures ss[0] == s && |ss| == 4
    ensures ss[3].runs == s.runs[c := Started] && ss[3].started == s.started[c := Unsent]
    ensures ss[3].released == s.released && ss[3].used == s.used + {c.attempt, c.fence} && ss[3].now == s.now
    ensures ss[3].row.status == Sending && ss[3].row.state == SendStarted && ss[3].row.lease == Some(c.startLease)
    ensures ss[3].row.providerId == s.row.providerId
  {
    var s1 := Apply(s, Mint(c));
    var s2 := Issuing(s1, c, ClaimAttempt(c), Answered);
    assert s2.runs == s.runs[c := HasLease] && Owns(s2.row, c);
    var s3 := Issuing(s2, c, StartSend(c), Answered);
    assert s3.runs == s.runs[c := Started];
    ss := [s, s1, s2, s3];
  }

  /** Expiry, a failed review and a replay make the row due again. */
  lemma ReviewAndReplay(s: State, t: int, token: nat) returns (ss: seq<State>)
    requires s.row.status == Sending && s.row.state == SendStarted && Before(s.row.lease, t) && s.now <= t
    requires token !in s.used
    ensures Steps(ss, [Tick(t), Env(RecoverExpired, 0), Env(ReconcileFailed, 1), Env(PrepareReplay(token), 0)])
    ensures ss[0] == s && |ss| == 5
    ensures ss[4].runs == s.runs && ss[4].started == s.started && ss[4].released == s.started.Keys
    ensures ss[4].used == s.used + {token} && ss[4].row.status == Queued && ss[4].row.state == NoAttempt
  {
    var s1 := s.(now := t);
    var s2 := Expiring(s1);
    var s3 := Reviewing(s2);
    var s4 := Replaying(s3, token);
    ss := [s, s1, s2, s3, s4];
  }

  lemma Expiring(s: State) returns (s': State)
    requires s.row.status == Sending && s.row.state == SendStarted && Before(s.row.lease, s.now)
    ensures s' == Apply(s, Env(RecoverExpired, 0))
    ensures s'.row.status == Ambiguous && s'.row.state == Unresolved
    ensures s'.runs == s.runs && s'.started == s.started && s'.used == s.used
  {
    s' := Apply(s, Env(RecoverExpired, 0));
  }

  lemma Reviewing(s: State) returns (s': State)
    requires s.row.status == Ambiguous && s.row.state == Unresolved
    ensures s' == Apply(s, Env(ReconcileFailed, 1))
    ensures s'.row.status == Failed && s'.row.state == FailedTerminal && s'.released == s.started.Keys
    ensures s'.runs == s.runs && s'.started == s.started && s'.used == s.used
  {
    s' := Apply(s, Env(ReconcileFailed, 1));
  }

  lemma Replaying(s: State, token: nat) returns (s': State)
    requires s.row.status == Failed && s.row.state == FailedTerminal && token !in s.used
    ensures Enabled(s, Env(PrepareReplay(token), 0)) && s' == Apply(s, Env(PrepareReplay(token), 0))
    ensures s'.row.status == Queued && s'.row.state == NoAttempt && s'.released == s.released
    ensures s'.runs == s.runs && s'.started == s.started && s'.used == s.used + {token}
  {
    s' := Apply(s, Env(PrepareReplay(token), 0));
  }

  /** The release in `Live` cannot be dropped: a worker may stall between starting and sending,
      long enough for its attempt to go to review, be resolved as failed and be replayed. Then
      two attempts may send, and only the operator's decision stands between them. */
  lemma AFailedReviewAllowsASecondSubmission(team: nat, c: Claim, d: Claim, token: nat)
    returns (ss: seq<State>, ls: seq<Label>)
    requires c.attempt != c.fence && d.attempt != d.fence && {c.attempt, c.fence} !! {d.attempt, d.fence}
    requires token !in {c.attempt, c.fence, d.attempt, d.fence}
    ensures IsTrace(ss, ls)
    ensures ss[|ls|].runs == map[c := Started, d := Started]
    ensures ss[|ls|].started == map[c := Unsent, d := Unsent] && ss[|ls|].released == {c}
  {
    var t := if c.startLease < 0 then 0 else c.startLease + 1;
    var a := ClaimAndStart(Init(team), c);
    var b := ReviewAndReplay(a[3], t, token);
    var e := ClaimAndStart(b[4], d);
    var la := [Mint(c), Issue(c, ClaimAttempt(c), Answered), Issue(c, StartSend(c), Answered)];
    var lb := [Tick(t), Env(RecoverExpired, 0), Env(ReconcileFailed, 1), Env(PrepareReplay(token), 0)];
    var le := [Mint(d), Issue(d, ClaimAttempt(d), Answered), Issue(d, StartSend(d), Answered)];
    ss, ls := Joined(a, la, b, lb, e, le);
    assert ss[0] == Init(team);
  }

  lemma Joined(a: seq<State>, la: seq<Label>, b: seq<State>, lb: seq<Label>, e: seq<State>, le: seq<Label>)
    returns (ss: seq<State>, ls: seq<Label>)
    requires Steps(a, la) && Steps(b, lb) && Steps(e, le) && |lb| > 0 && |le| > 0
    requires a[|la|] == b[0] && b[|lb|] == e[0]
    ensures Steps(ss, ls) && ss[0] == a[0] && ss[|ls|] == e[|le|]
  {
    StepsCompose(a, la, b, lb);
    StepsCompose(a + b[1..], la + lb, e, le);
    ss, ls := a + b[1..] + e[1..], la + lb + le;
  }

  /** So does a failure callback: the row is failed, an operator replays it, and a second run
      starts while the first may still send. */
  lemma AFailureCallbackAllowsASecondSubmission(team: nat, c: Claim, d: Claim, token: nat, pid: string)
    returns (ss: seq<State>, ls: seq<Label>)
    requires c.attempt != c.fence && d.attempt != d.fence && {c.attempt, c.fence} !! {d.attempt, d.fence}
    requires token !in {c.attempt, c.fence, d.attempt, d.fence}
    ensures IsTrace(ss, ls)
    ensures ss[|ls|].runs == map[c := Started, d := Started]
    ensures ss[|ls|].started == map[c := Unsent, d := Unsent] && ss[|ls|].released == {c}
  {
    var a := ClaimAndStart(Init(team), c);
    var b := CallbackAndReplay(a[3], pid, token);
    var e := ClaimAndStart(b[2], d);
    var la := [Mint(c), Issue(c, ClaimAttempt(c), Answered), Issue(c, StartSend(c), Answered)];
    var lb := [Env(ProviderEvent(pid, Some(Failed)), 1), Env(PrepareReplay(token), 0)];
    var le := [Mint(d), Issue(d, ClaimAttempt(d), Answered), Issue(d, StartSend(d), Answered)];
    ss, ls := Joined(a, la, b, lb, e, le);
    assert ss[0] == Init(team);
  }

  lemma CallbackAndReplay(s: State, pid: string, token: nat) returns (ss: seq<State>)
    requires s.row.status == Sending && s.row.state == SendStarted && s.row.providerId.None? && token !in s.used
    ensures Steps(ss, [Env(ProviderEvent(pid, Some(Failed)), 1), Env(PrepareReplay(token), 0)])
    ensures ss[0] == s && |ss| == 3
    ensures ss[2].runs == s.runs && ss[2].started == s.started && ss[2].released == s.started.Keys
    ensures ss[2].used == s.used + {token} && ss[2].row.status == Queued && ss[2].row.state == NoAttempt
  {
    var s1 := Apply(s, Env(ProviderEvent(pid, Some(Failed)), 1));
    assert s1.row.status == Failed && s1.row.state == FailedTerminal && s1.released == s.started.Keys;
    var s2 := Replaying(s1, token);
    ss := [s, s1, s2];
  }

  // --------------------------------------------------------- exactly these steps

  /** The attempt may have produced a message, or may still, whatever was decided about it. */
  predicate MaySubmit(s: State, c: Claim) {
    c in s.started && s.started[c] != Rejected
  }

  ghost predicate OnceOnly(s: State) {
    forall c, d | MaySubmit(s, c) && MaySubmit(s, d) :: c == d
  }

  /** Only rejected attempts have been written off so far. */
  ghost predicate NothingWrittenOff(s: State) {
    forall c | c in s.released :: !MaySubmit(s, c)
  }

  /** A failed review, or a failure callback that applies. */
  predicate WritesOff(s: State, l: Label) {
    l.Env? && Guard(s.row, l.q, s.now) && Releases(s.row, l.q)
  }

  /** However the run goes on without another write-off, at most one attempt may submit. */
  ghost predicate OnceFrom(s: State) {
    forall ss, ls, i | Steps(ss, ls) && ss[0] == s && Undecided(ss, ls) && 0 <= i < |ss| :: OnceOnly(ss[i])
  }

  ghost predicate Undecided(ss: seq<State>, ls: seq<Label>)
    requires Steps(ss, ls)
  {
    forall j | 0 <= j < |ls| :: !WritesOff(ss[j], ls[j])
  }

  lemma DoKeepsWrittenOff(s: State, q: Stmt, n: nat)
    requires IdsInv(s) && Safe(s, q) && NothingWrittenOff(s)
    requires Guard(s.row, q, s.now) && Releases(s.row, q) ==> forall c :: !Live(s, c)
    ensures NothingWrittenOff(Do(s, q, n))
  {
    var s' := Do(s, q, n);
    forall c | c in s'.released ensures !MaySubmit(s', c) {
      assert !Live(s, c) || c in s.released;
    }
  }

  lemma SameStarts(s: State, s': State)
    requires NothingWrittenOff(s) && s'.started == s.started && s'.released == s.released
    ensures NothingWrittenOff(s')
  {
    forall c | c in s'.released ensures !MaySubmit(s', c) {
      assert !MaySubmit(s, c);
    }
  }

  lemma IssueKeepsWrittenOff(s: State, c: Claim, q: Stmt, reply: Reply)
    requires Inv(s) && c in s.runs && MayIssue(c, s.runs[c], q) && NothingWrittenOff(s)
    ensures NothingWrittenOff(Issuing(s, c, q, reply))
  {
    assert PcOk(s, c);
    DoKeepsWrittenOff(s, q, 0);
    if reply.Answered? || reply.landed {
      SameStarts(Do(s, q, 0), Issuing(s, c, q, reply));
    } else {
      SameStarts(s, Issuing(s, c, q, reply));
    }
  }

  lemma LandingKeepsWrittenOff(s: State, q: Stmt)
    requires Inv(s) && q in s.late && NothingWrittenOff(s)
    ensures NothingWrittenOff(Do(s.(late := s.late - {q}), q, 0))
  {
    assert LateOk(s, q);
    DoKeepsWrittenOff(s, q, 0);
    SameStarts(Do(s, q, 0), Do(s.(late := s.late - {q}), q, 0));
  }

  lemma EnvKeepsWrittenOff(s: State, q: Stmt, n: nat)
    requires Inv(s) && Enabled(s, Env(q, n)) && NothingWrittenOff(s)
    requires WritesOff(s, Env(q, n)) ==> forall c :: !Live(s, c)
    ensures NothingWrittenOff(Apply(s, Env(q, n)))
  {
    DoKeepsWrittenOff(s, q, n);
    SameStarts(Do(s, q, n), Apply(s, Env(q, n)));
  }

  lemma HearingKeepsWrittenOff(s: State, c: Claim, a: Answer)
    requires Inv(s) && c in s.runs && s.runs[c] == Started && NothingWrittenOff(s)
    ensures NothingWrittenOff(Hearing(s, c, a))
  {
    assert PcOk(s, c) && MaySubmit(s, c) && c !in s.released;
    forall d | d in s.released ensures !MaySubmit(Hearing(s, c, a), d) {
      assert !MaySubmit(s, d);
    }
  }

  lemma StepKeepsWrittenOff(s: State, l: Label)
    requires Inv(s) && Enabled(s, l) && NothingWrittenOff(s)
    requires WritesOff(s, l) ==> forall c :: !Live(s, c)
    ensures NothingWrittenOff(Apply(s, l))
  {
    match l
    case Issue(c, q, reply) => IssueKeepsWrittenOff(s, c, q, reply);
    case Lands(q) => LandingKeepsWrittenOff(s, q);
    case Env(q, n) => EnvKeepsWrittenOff(s, q, n);
    case Provider(c, a) => HearingKeepsWrittenOff(s, c, a);
    case _ => SameStarts(s, Apply(s, l));
  }

  lemma {:induction false} StaysOnce(ss: seq<State>, ls: seq<Label>, i: nat)
    requires Steps(ss, ls) && Inv(ss[0]) && NothingWrittenOff(ss[0]) && Undecided(ss, ls) && i < |ss|
    ensures Inv(ss[i]) && NothingWrittenOff(ss[i]) && OnceOnly(ss[i])
  {
    if i > 0 {
      StaysOnce(ss, ls, i - 1);
      StepKeepsInv(ss[i - 1], ls[i - 1]);
      StepKeepsWrittenOff(ss[i - 1], ls[i - 1]);
    }
    assert forall c | MaySubmit(ss[i], c) :: Live(ss[i], c);
  }

  lemma {:induction false} Unused(used: set<nat>, n: nat) returns (free: nat)
    ensures free !in used && free >= n
    decreases |set x | x in used && x >= n|
  {
    var above := set x | x in used && x >= n;
    if n in used {
      var next := set x | x in used && x >= n + 1;
      assert next == above - {n};
      free := Unused(used, n + 1);
    } else {
      free := n;
    }
  }

  /** After a live attempt was written off, a replay and a second run are always possible. */
  lemma SecondRun(s: State, c: Claim) returns (ss: seq<State>, ls: seq<Label>)
    requires Inv(s) && MaySubmit(s, c) && s.row.status == Failed && s.row.state == FailedTerminal
    ensures Steps(ss, ls) && ss[0] == s && Undecided(ss, ls) && !OnceOnly(ss[|ls|])
  {
    var token := Unused(s.used, 0);
    var attempt := Unused(s.used, token + 1);
    var fence := Unused(s.used, attempt + 1);
    var d := Claim(attempt, fence, 0, 0);
    var s1 := Replaying(s, token);
    var e := ClaimAndStart(s1, d);
    var le := [Mint(d), Issue(d, ClaimAttempt(d), Answered), Issue(d, StartSend(d), Answered)];
    StepsCompose([s, s1], [Env(PrepareReplay(token), 0)], e, le);
    ss, ls := [s, s1] + e[1..], [Env(PrepareReplay(token), 0)] + le;
    assert ss[|ls|] == e[3];
    assert MaySubmit(e[3], c) && MaySubmit(e[3], d) && c != d;
  }

  /** In any reachable state in which no attempt that may submit has been written off: a step
      keeps the promise, in every continuation without another write-off, if and only if it
      does not write off a live attempt itself. */
  lemma OneSubmissionIff(ss: seq<State>, ls: seq<Label>, l: Label)
    requires IsTrace(ss, ls) && Enabled(ss[|ls|], l) && NothingWrittenOff(ss[|ls|])
    ensures OnceFrom(Apply(ss[|ls|], l)) <==> !(WritesOff(ss[|ls|], l) && exists c :: Live(ss[|ls|], c))
  {
    var s := ss[|ls|];
    InvHolds(ss, ls, |ls|);
    StepKeepsInv(s, l);
    var s' := Apply(s, l);
    if WritesOff(s, l) && exists c :: Live(s, c) {
      var c :| Live(s, c);
      assert s'.started == s.started && s'.row.status == Failed && s'.row.state == FailedTerminal;
      var ts, ms := SecondRun(s', c);
      assert !OnceOnly(ts[|ms|]);
    } else {
      StepKeepsWrittenOff(s, l);
      forall ts, ms, i | Steps(ts, ms) && ts[0] == s' && Undecided(ts, ms) && 0 <= i < |ts| ensures OnceOnly(ts[i]) {
        StaysOnce(ts, ms, i);
      }
    }
  }
}
