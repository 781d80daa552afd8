/** The guards of `NoLoss` are exact: an exposing step that does not find what it needs lets some
    continuation lose the email, although every later exposing step does. */
module NoLossExact {
  import opened EmailRows
  import opened Receipts
  import opened Queue
  import opened NoLoss

  /** From this state on, whatever happens, the email stays safe as long as the exposing steps
      still to come find what they need. */
  ghost predicate SafeFrom(s: State, id: string) {
    forall ss, ls, i | Steps(ss, ls) && ss[0] == s && GuardedRun(ss, ls, id) && 0 <= i < |ss| :: !IsLost(ss[i], id)
  }

  lemma StepsCons(s: State, l: Label, ss: seq<State>, ls: seq<Label>, id: string)
    requires Enabled(s, l) && Steps(ss, ls) && ss[0] == Apply(s, l)
    requires Guarded(s, l, id) && GuardedRun(ss, ls, id)
    ensures Steps([s] + ss, [l] + ls) && GuardedRun([s] + ss, [l] + ls, id)
    ensures ([s] + ss)[|ls| + 1] == ss[|ls|]
  {
    var all, labels := [s] + ss, [l] + ls;
    forall i | 0 <= i < |labels| ensures Enabled(all[i], labels[i]) && all[i + 1] == Apply(all[i], labels[i]) {
      if i > 0 { assert all[i] == ss[i - 1] && labels[i] == ls[i - 1] && all[i + 1] == ss[i]; }
    }
    forall i | 0 <= i < |labels| ensures Guarded(all[i], labels[i], id) {
      if i > 0 { assert all[i] == ss[i - 1] && labels[i] == ls[i - 1]; }
    }
  }

  /** The write that a holder of a queued row still makes: it misses, and the receipt goes. */
  function LastWrite(phase: Phase): Stmt {
    match phase
    case HasLease(c) => StartSend(c)
    case Started(c) => MarkRetryable(c)
    case _ => RecoveryEnqueued
  }

  lemma HolderMisses(s: State, k: nat, id: string) returns (l: Label)
    requires Base(s) && Exposed(s, id) && At(s, k).Holding? && At(s, k).id == id
    requires At(s, k).phase.HasLease? || At(s, k).phase.Started?
    ensures Enabled(s, l) && !Exposes(s, l, id)
    ensures Apply(s, l) == Go(s, k, At(s, k).(phase := ToAck))
  {
    l := Writes(k, LastWrite(At(s, k).phase), Answered, false);
    assert s.rows[id := s.rows[id]] == s.rows;
  }

  /** A doomed receipt leaves the queue and nothing else changes for the email. */
  lemma ReceiptGone(s: State, s': State, token: string, id: string)
    requires Base(s) && Exposed(s, id) && !Secured(s, id) && Sep !in token && Encode(token, id) in s.q.processing
    requires s'.q == Ack(s.q, token, id) && s'.rows == s.rows && s'.published == s.published
    requires forall r | r != Encode(token, id) && Doomed(s, r) :: Doomed(s', r)
    ensures Exposed(s', id) && !Secured(s', id) && |s'.q.processing| < |s.q.processing|
  {
    var r := Encode(token, id);
    DropKeepsQueue(s, token, id, Drop(s.q, r));
    RemovingShortens(s.q.processing, r);
    RemoveFirstDrops(s.q.processing, r);
    forall x | x in s'.q.processing && IdOf(x) == id ensures !Live(s', x) {
      assert x != r && !Live(s, x);
    }
  }

  /** The holder acknowledges. */
  lemma HolderAcks(s: State, k: nat, id: string) returns (l: Label)
    requires Base(s) && Exposed(s, id) && !Secured(s, id)
    requires At(s, k).Holding? && At(s, k).id == id && At(s, k).phase.ToAck?
    requires Encode(At(s, k).token, id) in s.q.processing
    ensures Enabled(s, l) && !Exposes(s, l, id)
    ensures Exposed(Apply(s, l), id) && !Secured(Apply(s, l), id)
    ensures |Apply(s, l).q.processing| < |s.q.processing|
  {
    l := Settles(k, true, true);
    var s' := Apply(s, l);
    forall r | r != Encode(At(s, k).token, id) && Doomed(s, r) ensures Doomed(s', r) {
      if m :| m in s.loops && GivesUp(s.loops[m], r) {
        assert m in s'.loops && GivesUp(s'.loops[m], r);
      }
    }
    ReceiptGone(s, s', At(s, k).token, id);
  }

  /** An acknowledgement under way takes effect. */
  lemma AckLands(s: State, token: string, id: string) returns (l: Label)
    requires Base(s) && Exposed(s, id) && !Secured(s, id)
    requires AckCall(token, id) in s.late && Encode(token, id) in s.q.processing
    ensures Enabled(s, l) && !Exposes(s, l, id)
    ensures Exposed(Apply(s, l), id) && !Secured(Apply(s, l), id)
    ensures |Apply(s, l).q.processing| < |s.q.processing|
  {
    l := Lands(AckCall(token, id));
    var s' := Apply(s, l);
    assert LateOk(s, AckCall(token, id));
    forall r | r != Encode(token, id) && Doomed(s, r) ensures Doomed(s', r) {
      if op :| op in s.late && op.AckCall? && Encode(op.token, op.id) == r {
        assert op in s'.late;
      }
    }
    ReceiptGone(s, s', token, id);
  }

  lemma {:induction false} RemovingShortens(items: seq<string>, r: string)
    requires r in items
    ensures |RemoveFirst(items, r)| < |items|
  {
    if items[0] != r {
      RemovingShortens(items[1..], r);
    }
  }

  /** What dooms a receipt of the email: its holder, or an acknowledgement under way. */
  lemma SomeReceipt(s: State, id: string) returns (token: string)
    requires Base(s) && !Secured(s, id) && id in Held(s.q)
    ensures Encode(token, id) in s.q.processing
    ensures || AckCall(token, id) in s.late
            || exists k | k in s.loops :: s.loops[k].Holding? && s.loops[k].id == id && s.loops[k].token == token
                                          && GivesUp(s.loops[k], Encode(token, id))
  {
    InIds(s.q.processing, id);
    var r :| r in s.q.processing && IdOf(r) == id;
    assert !Live(s, r);
    if k :| k in s.loops && GivesUp(s.loops[k], r) {
      token := s.loops[k].token;
      DecodingReturnsTheId(token, s.loops[k].id);
    } else {
      var op :| op in s.late && op.AckCall? && Encode(op.token, op.id) == r;
      assert LateOk(s, op);
      token := op.token;
      DecodingReturnsTheId(token, op.id);
    }
  }

  lemma MissKeepsLoss(s: State, k: nat, id: string)
    requires Base(s) && Exposed(s, id) && !Secured(s, id) && k in s.loops && s.loops[k].Holding? && s.loops[k].id == id
    requires s.loops[k].phase.HasLease? || s.loops[k].phase.Started?
    ensures var s' := Go(s, k, s.loops[k].(phase := ToAck)); Exposed(s', id) && !Secured(s', id)
  {
    var s' := Go(s, k, s.loops[k].(phase := ToAck));
    forall x | x in s'.q.processing && IdOf(x) == id ensures !Live(s', x) {
      assert Doomed(s, x);
      if m :| m in s.loops && GivesUp(s.loops[m], x) {
        assert m in s'.loops && GivesUp(s'.loops[m], x);
      }
    }
  }

  /** An exposed email that nothing secures is lost if its holders just finish. */
  lemma {:induction false} HoldersFinish(s: State, id: string) returns (ss: seq<State>, ls: seq<Label>)
    requires Base(s) && Exposed(s, id) && !Secured(s, id)
    ensures Steps(ss, ls) && ss[0] == s && GuardedRun(ss, ls, id) && IsLost(ss[|ls|], id)
    decreases |s.q.processing|, 2
  {
    if id !in Held(s.q) {
      ss, ls := [s], [];
    } else {
      var token := SomeReceipt(s, id);
      if AckCall(token, id) in s.late {
        var l := AckLands(s, token, id);
        ss, ls := GoneAndFinish(s, l, id);
      } else {
        var k :| k in s.loops && s.loops[k].Holding? && s.loops[k].id == id && s.loops[k].token == token
                 && GivesUp(s.loops[k], Encode(token, id));
        if s.loops[k].phase.ToAck? {
          var l := HolderAcks(s, k, id);
          ss, ls := GoneAndFinish(s, l, id);
        } else {
          ss, ls := MissAndFinish(s, k, id);
        }
      }
    }
  }

  lemma {:induction false} MissAndFinish(s: State, k: nat, id: string) returns (ss: seq<State>, ls: seq<Label>)
    requires Base(s) && Exposed(s, id) && !Secured(s, id)
    requires k in s.loops && s.loops[k].Holding? && s.loops[k].id == id
    requires s.loops[k].phase.HasLease? || s.loops[k].phase.Started?
    requires Encode(s.loops[k].token, id) in s.q.processing
    ensures Steps(ss, ls) && ss[0] == s && GuardedRun(ss, ls, id) && IsLost(ss[|ls|], id)
    decreases |s.q.processing|, 1
  {
    var l := HolderMisses(s, k, id);
    MissKeepsLoss(s, k, id);
    StepKeepsBase(s, l);
    var next := Apply(s, l);
    var m := HolderAcks(next, k, id);
    var ts, ms := GoneAndFinish(next, m, id);
    StepsCons(s, l, ts, ms, id);
    ss, ls := [s] + ts, [l] + ms;
  }

  lemma {:induction false} GoneAndFinish(s: State, l: Label, id: string) returns (ss: seq<State>, ls: seq<Label>)
    requires Base(s) && Enabled(s, l) && !Exposes(s, l, id)
    requires Exposed(Apply(s, l), id) && !Secured(Apply(s, l), id)
    requires |Apply(s, l).q.processing| < |s.q.processing|
    ensures Steps(ss, ls) && ss[0] == s && GuardedRun(ss, ls, id) && IsLost(ss[|ls|], id)
    decreases |s.q.processing|, 0
  {
    StepKeepsBase(s, l);
    var ts, ms := HoldersFinish(Apply(s, l), id);
    StepsCons(s, l, ts, ms, id);
    ss, ls := [s] + ts, [l] + ms;
  }

  lemma SafeFromIff(s: State, id: string)
    requires Base(s)
    ensures SafeFrom(s, id) <==> Kept(s, id)
  {
    if Kept(s, id) {
      forall ss, ls, i | Steps(ss, ls) && ss[0] == s && GuardedRun(ss, ls, id) && 0 <= i < |ss|
        ensures !IsLost(ss[i], id)
      {
        KeptHolds(ss, ls, id, i);
        if Secured(ss[i], id) { SecuredIsHeld(ss[i], id); }
      }
    } else {
      var ss, ls := HoldersFinish(s, id);
      assert IsLost(ss[|ls|], id);
    }
  }

  lemma LoopsAndQueueDecide(s: State, s': State, id: string)
    requires s'.q == s.q && s'.loops.Keys == s.loops.Keys
    requires forall op: Call | op.AckCall? :: op in s'.late <==> op in s.late
    requires forall k, r | k in s.loops && IdOf(r) == id && r in s.q.processing ::
          GivesUp(s'.loops[k], r) <==> GivesUp(s.loops[k], r)
    ensures Secured(s', id) <==> Secured(s, id)
  {
    forall r | IdOf(r) == id && r in s.q.processing ensures Doomed(s', r) <==> Doomed(s, r) {}
    forall r | IdOf(r) == id ensures Live(s', r) <==> Live(s, r) {}
  }

  /** A replay whose process stops after the row write, in any reachable state and with any
      loops at work: the email is safe from then on if and only if it was secured. */
  lemma InterruptedReplayIsSafeIff(ss: seq<State>, ls: seq<Label>, id: string, token: nat)
    requires IsTrace(ss, ls)
    requires id in ss[|ls|].published && Hits(ss[|ls|], id, PrepareReplay(token))
    ensures SafeFrom(Apply(ss[|ls|], Prepares(id, token)), id) <==> Secured(ss[|ls|], id)
  {
    BaseHolds(ss, ls, |ls|);
    var s := ss[|ls|];
    var s' := Apply(s, Prepares(id, token));
    StepKeepsBase(s, Prepares(id, token));
    LoopsAndQueueDecide(s, s', id);
    SafeFromIff(s', id);
  }

  /** The end of a re-enqueue is safe if and only if the entry just written, or another one, is
      still there for somebody to send. */
  lemma RecoveryMarkIsSafeIff(ss: seq<State>, ls: seq<Label>, k: nat, id: string, heard: bool)
    requires IsTrace(ss, ls)
    requires At(ss[|ls|], k).Marking? && At(ss[|ls|], k).id == id
    requires id in ss[|ls|].published && NeedsMark(ss[|ls|], id)
    ensures SafeFrom(Apply(ss[|ls|], Reenqueues(k, true, heard)), id) <==> Secured(ss[|ls|], id)
  {
    BaseHolds(ss, ls, |ls|);
    var s := ss[|ls|];
    var s' := Apply(s, Reenqueues(k, true, heard));
    StepKeepsBase(s, Reenqueues(k, true, heard));
    LoopsAndQueueDecide(s, s', id);
    SafeFromIff(s', id);
  }

  lemma RetryWithoutReceipt(s: State, k: nat, c: Claim, reply: Reply, more: bool)
    requires Enabled(s, Writes(k, MarkRetryable(c), reply, more)) && Landed(reply)
        && Hits(s, At(s, k).id, MarkRetryable(c))
    requires Encode(At(s, k).token, At(s, k).id) !in s.q.processing
    ensures Secured(DoWrite(s, k, MarkRetryable(c), reply, more), At(s, k).id) <==> Secured(s, At(s, k).id)
  {
    LoopsAndQueueDecide(s, DoWrite(s, k, MarkRetryable(c), reply, more), At(s, k).id);
  }

  /** A worker that gives its row back is safe if and only if the queue has not taken its
      receipt back meanwhile, or the email is secured without it. */
  lemma RetryIsSafeIff(ss: seq<State>, ls: seq<Label>, k: nat, c: Claim, reply: Reply, more: bool)
    requires IsTrace(ss, ls)
    requires Enabled(ss[|ls|], Writes(k, MarkRetryable(c), reply, more)) && Landed(reply)
    requires At(ss[|ls|], k).id in ss[|ls|].published && Hits(ss[|ls|], At(ss[|ls|], k).id, MarkRetryable(c))
    ensures var s, pc := ss[|ls|], At(ss[|ls|], k);
            SafeFrom(Apply(s, Writes(k, MarkRetryable(c), reply, more)), pc.id)
            <==> Encode(pc.token, pc.id) in s.q.processing || Secured(s, pc.id)
  {
    BaseHolds(ss, ls, |ls|);
    var s, pc, l := ss[|ls|], At(ss[|ls|], k), Writes(k, MarkRetryable(c), reply, more);
    var s' := Apply(s, l);
    StepKeepsBase(s, l);
    SafeFromIff(s', pc.id);
    if Encode(pc.token, pc.id) in s.q.processing || Secured(s, pc.id) {
      RetryKeeps(s, k, MarkRetryable(c), reply, more, pc.id);
    } else {
      RetryWithoutReceipt(s, k, c, reply, more);
    }
  }

  /** A retry or a mark that lands late can count on nothing but what is there by then. */
  lemma LateWriteIsSafeIff(ss: seq<State>, ls: seq<Label>, op: Call, id: string)
    requires IsTrace(ss, ls) && op in ss[|ls|].late && id in ss[|ls|].published && LateExposure(ss[|ls|], op, id)
    ensures SafeFrom(Apply(ss[|ls|], Lands(op)), id) <==> Secured(ss[|ls|], id)
  {
    BaseHolds(ss, ls, |ls|);
    var s := ss[|ls|];
    StepKeepsBase(s, Lands(op));
    LoopsAndQueueDecide(s, Land(s, op), id);
    SafeFromIff(Land(s, op), id);
  }

  /** One more dead letter on a full list, at once or late, is safe for an email whose row still
      relies on the queue if and only if the queue knows it outside the tail that falls off. */
  lemma DeadLetterIsSafeIff(ss: seq<State>, ls: seq<Label>, l: Label, id: string)
    requires IsTrace(ss, ls) && Enabled(ss[|ls|], l) && id in ss[|ls|].published && TrimsAt(ss[|ls|], l, id)
    ensures SafeFrom(Apply(ss[|ls|], l), id) <==>
            SecuredWithoutTheTail(ss[|ls|], if l.Settles? then At(ss[|ls|], l.k).id else l.op.id, id)
  {
    BaseHolds(ss, ls, |ls|);
    var s := ss[|ls|];
    StepKeepsBase(s, l);
    SafeFromIff(Apply(s, l), id);
    match l
    case Settles(k, _, heard) => TrimBySettling(s, k, heard, id);
    case Lands(op) => TrimByLanding(s, op, id);
  }
}
