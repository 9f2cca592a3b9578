/** What every store reached with fixed limits keeps: rows that read back, bounded traffic, one
    message for each sender and key. */
module MessageStoreRuns {
  import opened Outcomes
  import opened MessageStore

  predicate LimitsOk(l: Limits) { l.maxInbox >= 1 && l.rateLimit >= 1 && l.rateWindow >= 1 }

  // ---------------------------------------------------------------- counting

  lemma {:induction false} CountLess(ms: seq<Message>, after: seq<Message>, p: Message -> bool, q: Message -> bool)
    requires |ms| == |after| && forall k :: 0 <= k < |ms| && q(after[k]) ==> p(ms[k])
    ensures Count(after, q) <= Count(ms, p)
  {
    if ms != [] {
      var n := |ms| - 1;
      CountLess(ms[..n], after[..n], p, q);
    }
  }

  lemma CountPush(ms: seq<Message>, m: Message, p: Message -> bool)
    ensures Count(ms + [m], p) == Count(ms, p) + (if p(m) then 1 else 0)
  {
    assert (ms + [m])[..|ms|] == ms;
  }

  /** Sent by `sender` within the closed window that begins at `since`. */
  function InWindow(sender: Id, since: int, l: Limits): Message -> bool {
    (m: Message) => m.request.sender == sender && since <= m.created <= since + l.rateWindow
  }

  ghost predicate RateOk(ms: seq<Message>, l: Limits) {
    forall sender: Id, since: int :: Count(ms, InWindow(sender, since, l)) <= l.rateLimit
  }

  ghost predicate InboxOk(ms: seq<Message>, l: Limits) {
    forall recipient: Id :: Count(ms, Waiting(recipient)) <= l.maxInbox
  }

  /** Later states of the same messages: who, what and when stay, and nothing becomes live again. */
  ghost predicate Later(ms: seq<Message>, after: seq<Message>) {
    && |ms| == |after|
    && forall k :: 0 <= k < |ms| ==>
      after[k].request == ms[k].request && after[k].created == ms[k].created && (Live(after[k]) ==> Live(ms[k]))
  }

  lemma LaterKeepsBounds(ms: seq<Message>, after: seq<Message>, l: Limits)
    requires Later(ms, after) && RateOk(ms, l) && InboxOk(ms, l)
    ensures RateOk(after, l) && InboxOk(after, l)
  {
    forall sender: Id, since: int ensures Count(after, InWindow(sender, since, l)) <= l.rateLimit {
      CountLess(ms, after, InWindow(sender, since, l), InWindow(sender, since, l));
    }
    forall recipient: Id ensures Count(after, Waiting(recipient)) <= l.maxInbox {
      CountLess(ms, after, Waiting(recipient), Waiting(recipient));
    }
  }

  lemma EnterKeepsBounds(ms: seq<Message>, r: Request, now: Time, l: Limits, d: Decision)
    requires RateOk(ms, l) && InboxOk(ms, l) && Bounds(ms, r, now, l).Ok?
    ensures RateOk(ms + [Entered(r, now, d)], l) && InboxOk(ms + [Entered(r, now, d)], l)
  {
    var m := Entered(r, now, d);
    forall sender: Id, since: int ensures Count(ms + [m], InWindow(sender, since, l)) <= l.rateLimit {
      CountPush(ms, m, InWindow(sender, since, l));
      if InWindow(sender, since, l)(m) {
        CountLess(ms, ms, FromSince(r.sender, now - l.rateWindow), InWindow(sender, since, l));
      } else {
        assert Count(ms, InWindow(sender, since, l)) <= l.rateLimit;
      }
    }
    forall recipient: Id ensures Count(ms + [m], Waiting(recipient)) <= l.maxInbox {
      CountPush(ms, m, Waiting(recipient));
      if recipient != r.recipient { assert Count(ms, Waiting(recipient)) <= l.maxInbox; }
    }
  }

  lemma ExpiredLater(ms: seq<Message>, now: Time)
    ensures Later(ms, ExpiredAll(ms, now))
  {
    ExpiredWhat(ms, now);
  }

  lemma AckedLater(ms: seq<Message>, id: Id, recipient: Id, now: Time)
    ensures Later(ms, AckedAll(ms, id, recipient, now))
  {
  }

  lemma FlushedLater(ms: seq<Message>, recipient: Id, now: Time, decide: Message -> Decision)
    requires forall k :: 0 <= k < |ms| ==> MessageOk(ms[k])
    ensures Later(ms, MapFrom(ms, 0, now, Flushing(recipient, decide)))
  {
  }

  // ---------------------------------------------------------------- every run

  ghost predicate Kept(ms: seq<Message>, after: seq<Message>) {
    |ms| <= |after| && forall k :: 0 <= k < |ms| ==> after[k].request == ms[k].request
  }

  ghost predicate Reached(rows: seq<Row>, ms: seq<Message>, l: Limits) {
    StoreOk(rows, ms) && RateOk(ms, l) && InboxOk(ms, l)
  }

  lemma SendKeeps(rows: seq<Row>, ms: seq<Message>, l: Limits, r: Request, now: Time, d: Decision) returns (after: seq<Message>)
    requires Reached(rows, ms, l)
    ensures Reached(Next(rows, l, DoSend(r, now, d)), after, l) && Kept(ms, after)
  {
    after := ms;
    if InTime(rows, now) && Send(rows, r, now, l, d).Ok? {
      var aged := ExpiredAll(ms, now);
      ExpiredLater(ms, now);
      LaterKeepsBounds(ms, aged, l);
      if k :| 0 <= k < |ms| && Keyed(ms[k], r.sender, r.key) {
        ResendExactly(rows, ms, k, r, now, l, d);
        after := aged;
      } else {
        SendExactly(rows, ms, r, now, l, d);
        EnterKeepsBounds(aged, r, now, l, d);
        after := aged + [Entered(r, now, d)];
      }
    }
  }

  lemma NextKeeps(rows: seq<Row>, ms: seq<Message>, l: Limits, step: Step) returns (after: seq<Message>)
    requires Reached(rows, ms, l)
    ensures Reached(Next(rows, l, step), after, l) && Kept(ms, after)
  {
    after := ms;
    if step.DoSend? {
      after := SendKeeps(rows, ms, l, step.request, step.now, step.decision);
    } else if InTime(rows, step.now) {
      var aged := ExpiredAll(ms, step.now);
      ExpiredLater(ms, step.now);
      LaterKeepsBounds(ms, aged, l);
      match step
      case DoExpire(now) =>
        ExpireOk(rows, ms, now);
        after := aged;
      case DoAcknowledge(id, recipient, now) =>
        AcknowledgeExactly(rows, ms, id, recipient, now);
        after := AckedAll(aged, id, recipient, now);
        AckedLater(aged, id, recipient, now);
        LaterKeepsBounds(aged, after, l);
      case DoFlush(recipient, now, decide) =>
        FlushExactly(rows, ms, recipient, now, decide);
        if Flush(rows, recipient, now, decide).Ok? {
          ExpireOk(rows, ms, now);
          after := MapFrom(aged, 0, now, Flushing(recipient, decide));
          FlushedLater(aged, recipient, now, decide);
          LaterKeepsBounds(aged, after, l);
        }
    }
  }

  lemma {:induction false} EveryStore(l: Limits, steps: seq<Step>) returns (ms: seq<Message>)
    requires LimitsOk(l)
    ensures Reached(Run(l, steps), ms, l)
    decreases |steps|
  {
    if steps == [] {
      ms := [];
    } else {
      var n := |steps| - 1;
      var before := EveryStore(l, steps[..n]);
      ms := NextKeeps(Run(l, steps[..n]), before, l, steps[n]);
    }
  }

  /** Whatever was written is accepted when it is read: every message of every reached store folds,
      and the store never outgrows the bound within which it can be read. */
  lemma WhatIsWrittenReads(l: Limits, steps: seq<Step>, id: Id)
    requires LimitsOk(l)
    ensures var rows := Run(l, steps);
      States(rows).Ok? && Read(rows, id).Ok? && (Read(rows, id).value.None? <==> id !in Ids(rows))
  {
    var ms := EveryStore(l, steps);
    var rows := Run(l, steps);
    StatesStand(rows, ms);
    if id in Ids(rows) {
      var k :| 0 <= k < |ms| && Ids(rows)[k] == id;
    }
  }

  /** A message has at most four rows, and never both an acknowledgement and an expiry. */
  lemma AtMostFourEvents(l: Limits, steps: seq<Step>, id: Id)
    requires LimitsOk(l)
    ensures var rows := Run(l, steps);
      RowsOf(rows, id) <= 4 && !(Acked(rows, id) && HasExpired(rows, id))
  {
    WhatIsWrittenReads(l, steps, id);
    var rows := Run(l, steps);
    ReadTells(rows, id);
    if Read(rows, id).value.None? { RowsOfNone(rows, id); }
  }

  /** In every closed window of the configured length a sender has at most its rate of messages, and
      every recipient has at most its inbox of live messages it has not acknowledged. */
  lemma TrafficIsBounded(l: Limits, steps: seq<Step>, sender: Id, since: int, recipient: Id)
    requires LimitsOk(l)
    ensures var states := States(Run(l, steps));
      && states.Ok?
      && Count(states.value, InWindow(sender, since, l)) <= l.rateLimit
      && Count(states.value, Waiting(recipient)) <= l.maxInbox
  {
    var ms := EveryStore(l, steps);
    StatesStand(Run(l, steps), ms);
  }

  /** After a pass of expiry nothing live is due. */
  lemma NothingDueAfterExpiry(l: Limits, steps: seq<Step>, now: Time)
    requires LimitsOk(l) && InTime(Run(l, steps), now)
    ensures var states := States(Next(Run(l, steps), l, DoExpire(now)));
      states.Ok? && forall k :: 0 <= k < |states.value| && Live(states.value[k]) ==> now < states.value[k].expires
  {
    var rows := Run(l, steps);
    var ms := EveryStore(l, steps);
    ExpireOk(rows, ms, now);
    ExpiredWhat(ms, now);
    StatesStand(ExpireUnsafe(rows, now).value, ExpiredAll(ms, now));
  }

  lemma RunPush(l: Limits, steps: seq<Step>, step: Step)
    ensures Run(l, steps + [step]) == Next(Run(l, steps), l, step)
  {
    assert (steps + [step])[..|steps + [step]| - 1] == steps;
  }

  lemma {:induction false} RequestsStay(l: Limits, steps: seq<Step>, more: seq<Step>, ms: seq<Message>) returns (after: seq<Message>)
    requires Reached(Run(l, steps), ms, l)
    ensures Reached(Run(l, steps + more), after, l) && Kept(ms, after)
    decreases |more|
  {
    if more == [] {
      assert steps + more == steps;
      after := ms;
    } else {
      var n := |more| - 1;
      var most := steps + more[..n];
      var before := RequestsStay(l, steps, more[..n], ms);
      RunPush(l, most, more[n]);
      assert most + [more[n]] == steps + more;
      after := NextKeeps(Run(l, most), before, l, more[n]);
    }
  }

  /** Once a request was taken, its sender's key means that request for good: the same request again,
      at any later time, returns the same message with the same content, and any other request under
      the key is refused. */
  lemma KeyNamesOneMessage(l: Limits, steps: seq<Step>, r: Request, now: Time, d: Decision, more: seq<Step>, again: Request, later: Time, e: Decision)
    requires LimitsOk(l) && Send(Run(l, steps), r, now, l, d).Ok?
    requires again.sender == r.sender && again.key == r.key
    requires var rows := Run(l, steps + [DoSend(r, now, d)] + more); InTime(rows, later)
    ensures var sent := Send(Run(l, steps + [DoSend(r, now, d)] + more), again, later, l, e);
      if again == r then sent.Ok? && sent.value.replayed && sent.value.message.request == r else sent == Err(DedupConflict)
  {
    var rows := Run(l, steps);
    var ms := EveryStore(l, steps);
    var taken := SendKeeps(rows, ms, l, r, now, d);
    RunPush(l, steps, DoSend(r, now, d));
    SendTaken(rows, ms, l, r, now, d, taken);
    var k :| 0 <= k < |taken| && taken[k].request == r;
    var after := RequestsStay(l, steps + [DoSend(r, now, d)], more, taken);
    assert Keyed(after[k], again.sender, again.key);
    ResendExactly(Run(l, steps + [DoSend(r, now, d)] + more), after, k, again, later, l, e);
  }

  lemma SendTaken(rows: seq<Row>, ms: seq<Message>, l: Limits, r: Request, now: Time, d: Decision, taken: seq<Message>)
    requires Reached(rows, ms, l) && Send(rows, r, now, l, d).Ok? && StoreOk(Next(rows, l, DoSend(r, now, d)), taken)
    ensures exists k :: 0 <= k < |taken| && taken[k].request == r
  {
    var sent := Send(rows, r, now, l, d).value;
    StatesStand(sent.rows, taken);
    if k :| 0 <= k < |ms| && Keyed(ms[k], r.sender, r.key) {
      ResendExactly(rows, ms, k, r, now, l, d);
      StatesStand(sent.rows, ExpiredAll(ms, now));
      assert taken[k].request == r;
    } else {
      SendExactly(rows, ms, r, now, l, d);
      var aged := ExpiredAll(ms, now);
      StatesStand(sent.rows, aged + [Entered(r, now, d)]);
      assert taken[|aged|].request == r;
    }
  }
}
