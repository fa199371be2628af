/** The upload queue empties: every queued batch can leave it, acknowledged exactly if the server has no reason
    to refuse it, and counted lost otherwise. */
module DeliveryProgress {
  import opened Options
  import opened Evidence
  import opened PlayerStore
  import opened ServerIngest
  import opened EvidenceDelivery

  /** The server has no reason to refuse the batch: valid evidence for a published playlist, not stored yet and
      in conflict with nothing that is, or stored already as it is. */
  ghost predicate Welcome(v: Server, b: Batch) {
    && b.playlistId in v.playlists && v.playlists[b.playlistId].published
    && Acceptable(v.playlists[b.playlistId], b)
    && (IsStored(v.records, ME, b) || (b.id !in v.records && !EventIdTaken(v.records, b)))
  }

  /** Batch ids are drawn by one player, so no other device's row has one of them. */
  ghost predicate OwnIds(s: State) {
    forall k :: 0 <= k < |s.client.inserted| && s.client.inserted[k].id in s.server.records ==>
      s.server.records[s.client.inserted[k].id].device == ME
  }

  lemma Chained(s: State, first: Step, rest: seq<Step>, s': State)
    requires Enabled(s, first) && Run(Next(s, first), rest, s')
    ensures Run(s, [first] + rest, s')
  {
    assert ([first] + rest)[1..] == rest;
  }

  lemma {:induction false} Joined(s: State, first: seq<Step>, s1: State, rest: seq<Step>, s': State)
    requires Run(s, first, s1) && Run(s1, rest, s')
    ensures Run(s, first + rest, s')
    decreases |first|
  {
    if first == [] {
      assert first + rest == rest;
    } else {
      assert (first + rest)[1..] == first[1..] + rest;
      Joined(Next(s, first[0]), first[1..], s1, rest, s');
    }
  }

  /** The checks and the insertion together refuse exactly what is not welcome, and with 400. */
  lemma AnswerFitsWelcome(v: Server, b: Batch)
    requires b.id in v.records ==> v.records[b.id].device == ME
    ensures var checked := Checked(v.playlists, v.records, ME, false, b);
            var a := if checked.Some? then checked.value else InsertAnswer(v.records, ME, b);
            RecordsSound(v.playlists, v.records) ==> if Welcome(v, b) then a.Accepted? else a == Rejected(400)
  {}

  /** The head of the queue is sent and answered. */
  lemma HeadIsAnswered(s: State) returns (steps: seq<Step>, s': State, answer: Answer)
    requires Inv(s) && OwnIds(s) && s.client.pending != []
    ensures var b := s.client.pending[0].payload;
            && Run(s, steps, s') && s'.client == s.client && Reply(ME, b, answer) in s'.replies
            && (if Welcome(s.server, b) then answer.Accepted? else answer == Rejected(400))
            && OwnIds(s')
  {
    var b := s.client.pending[0].payload;
    var r := Request(ME, b);
    PendingWasInserted(s.client, 0);
    AnswerFitsWelcome(s.server, b);
    var s1 := Next(s, Send);
    var s2 := Next(s1, Check(r, false));
    var checked := Checked(s.server.playlists, s.server.records, ME, false, b);
    if checked.Some? {
      steps, s', answer := [Send] + [Check(r, false)], s2, checked.value;
      Chained(s1, Check(r, false), [], s2);
    } else {
      s', answer := Next(s2, Insert(r)), InsertAnswer(s.server.records, ME, b);
      steps := [Send] + ([Check(r, false)] + [Insert(r)]);
      Chained(s2, Insert(r), [], s');
      Chained(s1, Check(r, false), [Insert(r)], s');
    }
    Chained(s, Send, steps[1..], s');
  }

  /** An answered head leaves the queue; the rest stays in its order. */
  lemma HeadLeaves(s: State) returns (steps: seq<Step>, s': State)
    requires Inv(s) && OwnIds(s) && s.client.pending != []
    ensures Run(s, steps, s') && Inv(s') && OwnIds(s') && s'.client.inserted == s.client.inserted
    ensures s'.client.pending == s.client.pending[1..]
    ensures var b := s.client.pending[0].payload;
            if Welcome(s.server, b)
            then s'.client.acked == s.client.acked + [b] && s'.client.losses == s.client.losses
                 && IsStored(s'.server.records, ME, b)
            else s'.client.removed == s.client.removed + [b] && s'.client.losses == s.client.losses + [1]
                 && s'.client.acked == s.client.acked
  {
    var b := s.client.pending[0].payload;
    var answered, s1, answer := HeadIsAnswered(s);
    WithoutFirst(s.client.pending);
    assert PositionOf(s.client.pending, b.id) == 0;
    var last := if answer.Accepted? then Acknowledge(b, answer.duplicate) else Poison(b, 400);
    s' := Next(s1, last);
    Chained(s1, last, [], s');
    Joined(s, answered, s1, [last], s');
    steps := answered + [last];
    RunInv(s, steps, s');
    if answer.Accepted? {
      assert s'.client.acked[|s.client.acked|] == b;
      assert WasAccepted(s'.replies, ME, s'.client.acked[|s.client.acked|]);
    }
  }

  /** From every reachable state in which no other device has taken one of its batch ids, a player whose device is
      enabled can empty its queue. */
  lemma QueueCanBeEmptied(s0: State, before: seq<Step>, s: State) returns (steps: seq<Step>, s': State)
    requires Initial(s0) && Run(s0, before, s) && OwnIds(s)
    ensures Run(s, steps, s') && s'.client.pending == []
    ensures |s'.client.inserted| == |s'.client.acked| + Sum(s'.client.losses)
  {
    RunInv(s0, before, s);
    steps, s' := Empties(s);
    Joined(s0, before, s, steps, s');
    EvidenceIsConserved(s0, before + steps, s');
  }

  lemma {:induction false} Empties(s: State) returns (steps: seq<Step>, s': State)
    requires Inv(s) && OwnIds(s)
    ensures Run(s, steps, s') && s'.client.pending == []
    decreases |s.client.pending|
  {
    if s.client.pending == [] {
      steps, s' := [], s;
    } else {
      var first, s1 := HeadLeaves(s);
      var rest;
      rest, s' := Empties(s1);
      Joined(s, first, s1, rest, s');
      steps := first + rest;
    }
  }

  lemma {:induction false} QueueStaysOrdered(s: State, steps: seq<Step>, s': State)
    requires Ordered(s.client.pending) && Run(s, steps, s')
    ensures Ordered(s'.client.pending)
    decreases |steps|
  {
    if steps != [] {
      match steps[0] {
        case Enqueue(row) => WithRowOrdered(s.client.pending, row);
        case Evict(n) => SuffixOrdered(s.client.pending, n);
        case Acknowledge(batch, _) => WithoutOrdered(s.client.pending, batch.id);
        case Poison(batch, _) => WithoutOrdered(s.client.pending, batch.id);
        case Corrupt(id) => WithoutOrdered(s.client.pending, id);
        case _ =>
      }
      QueueStaysOrdered(Next(s, steps[0]), steps[1..], s');
    }
  }

  /** What a forced loss takes is what was queued first: in every reachable state the batches removed are older
      than those that stay, or as old. */
  lemma OldestAreEvicted(s0: State, steps: seq<Step>, s: State, n: nat, gone: QueueRow, kept: QueueRow)
    requires Initial(s0) && Run(s0, steps, s) && Enabled(s, Evict(n))
    requires gone in s.client.pending && gone !in Next(s, Evict(n)).client.pending
    requires kept in Next(s, Evict(n)).client.pending
    ensures kept in s.client.pending && gone.createdAt <= kept.createdAt
  {
    QueueStaysOrdered(s0, steps, s);
    var i :| 0 <= i < |s.client.pending| && s.client.pending[i] == gone;
    var after := Next(s, Evict(n)).client.pending;
    var j :| 0 <= j < |after| && after[j] == kept;
    forall x | n <= x < |s.client.pending| ensures s.client.pending[x] in after {
      assert after[x - n] == s.client.pending[x];
    }
  }

  /** The server refuses evidence with 400 or 403 only. */
  ghost predicate KnownRefusals(replies: set<Reply>) {
    forall r :: r in replies && r.answer.Rejected? ==> r.answer.status == 400 || r.answer.status == 403
  }

  lemma {:induction false} RefusalsAreKnown(s: State, steps: seq<Step>, s': State)
    requires KnownRefusals(s.replies) && Run(s, steps, s')
    ensures KnownRefusals(s'.replies)
    decreases |steps|
  {
    if steps != [] { RefusalsAreKnown(Next(s, steps[0]), steps[1..], s'); }
  }

  /** A refusal of access, as while the device is disabled, costs no evidence: in every reachable state only an
      answer 400 to that very batch lets the player drop it. */
  lemma OnlyInvalidEvidenceIsDropped(s0: State, steps: seq<Step>, s: State, b: Batch, status: nat)
    requires Initial(s0) && Run(s0, steps, s) && Enabled(s, Poison(b, status))
    ensures status == 400 && Reply(ME, b, Rejected(400)) in s.replies
  {
    RefusalsAreKnown(s0, steps, s);
  }
}
