/** One player's upload queue against the server, over a network that may lose, repeat and delay requests
    and lose responses, with other devices submitting at the same time. */
module EvidenceDelivery {
  import opened Options
  import opened Evidence
  import opened PlayerStore
  import opened ServerIngest

  type QueueRow = Row<Batch>

  datatype Request = Request(device: nat, batch: Batch)

  datatype Reply = Reply(device: nat, batch: Batch, answer: Answer)

  /** The player: its queue, and as history every batch ever inserted, the acknowledged and the removed
      ones, and the removed_batches of each loss event. */
  datatype Client = Client(
    pending: seq<QueueRow>,
    inserted: seq<Batch>,
    acked: seq<Batch>,
    removed: seq<Batch>,
    losses: seq<nat>)

  /** `checked` are requests that passed the checks and may be inserted at any later time. */
  datatype Server = Server(
    playlists: map<nat, Playlist>,
    records: Records,
    checked: set<Request>)

  /** `sent` and `replies` hold everything the network ever carried. */
  datatype State = State(client: Client, server: Server, sent: set<Request>, replies: set<Reply>)

  datatype Step =
    | Enqueue(row: QueueRow)
    | Evict(n: nat)
    | Send
    | SendOther(request: Request)
    | Check(request: Request, disabled: bool)
    | Insert(request: Request)
    | Acknowledge(batch: Batch, duplicate: bool)
    | Poison(batch: Batch, status: nat)
    | Corrupt(id: nat)
    | EditPlaylists(playlists: map<nat, Playlist>)

  const ME: nat := 0

  predicate IsPermanentUploadRejection(status: nat) {
    400 <= status <= 499 && status !in {401, 403, 408, 429}
  }

  /** Published versions keep their window and entries; a draft may change or be published. */
  predicate PlaylistsKept(before: map<nat, Playlist>, after: map<nat, Playlist>) {
    forall p :: p in before && before[p].published ==> p in after && after[p] == before[p]
  }

  ghost predicate IsNewRow(c: Client, r: QueueRow) {
    && r.id == r.payload.id && !Holds(c.pending, r.id)
    && forall k :: 0 <= k < |c.inserted| ==> c.inserted[k].id != r.id
  }

  ghost predicate Enabled(s: State, step: Step) {
    match step
    case Enqueue(row) => IsNewRow(s.client, row)
    case Evict(n) => 0 < n <= |s.client.pending|
    case Send => s.client.pending != []
    case SendOther(request) => request.device != ME
    case Check(request, _) => request in s.sent
    case Insert(request) => request in s.server.checked
    case Acknowledge(batch, duplicate) => Reply(ME, batch, Accepted(duplicate)) in s.replies
    case Poison(batch, status) => Reply(ME, batch, Rejected(status)) in s.replies && IsPermanentUploadRejection(status)
    case Corrupt(_) => true
    case EditPlaylists(playlists) => PlaylistsKept(s.server.playlists, playlists)
  }

  function Payloads(rows: seq<QueueRow>): (r: seq<Batch>)
    ensures |r| == |rows| && forall k :: 0 <= k < |r| ==> r[k] == rows[k].payload
  {
    seq(|rows|, k requires 0 <= k < |rows| => rows[k].payload)
  }

  /** A poisoned or corrupt batch is dropped with a loss event of one, if it is still queued. */
  function Discarded(c: Client, id: nat): Client {
    var n := PositionOf(c.pending, id);
    if n == |c.pending| then c
    else c.(pending := Without(c.pending, id), removed := c.removed + [c.pending[n].payload], losses := c.losses + [1])
  }

  function Acknowledged(c: Client, id: nat): Client {
    var n := PositionOf(c.pending, id);
    if n == |c.pending| then c
    else c.(pending := Without(c.pending, id), acked := c.acked + [c.pending[n].payload])
  }

  function Evicted(c: Client, n: nat): Client
    requires n <= |c.pending|
  {
    c.(pending := c.pending[n..], removed := c.removed + Payloads(c.pending[..n]), losses := c.losses + [n])
  }

  function EnqueuedRow(c: Client, r: QueueRow): Client {
    c.(pending := WithRow(c.pending, r), inserted := c.inserted + [r.payload])
  }

  ghost function CheckStep(s: State, r: Request, disabled: bool): State {
    var a := Checked(s.server.playlists, s.server.records, r.device, disabled, r.batch);
    if a.Some? then s.(replies := s.replies + {Reply(r.device, r.batch, a.value)})
    else s.(server := s.server.(checked := s.server.checked + {r}))
  }

  ghost function InsertStep(s: State, r: Request): State {
    s.(server := s.server.(records := InsertRecords(s.server.records, r.device, r.batch)),
       replies := s.replies + {Reply(r.device, r.batch, InsertAnswer(s.server.records, r.device, r.batch))})
  }

  ghost function Next(s: State, step: Step): State
    requires Enabled(s, step)
  {
    match step
    case Enqueue(row) => s.(client := EnqueuedRow(s.client, row))
    case Evict(n) => s.(client := Evicted(s.client, n))
    case Send => s.(sent := s.sent + {Request(ME, s.client.pending[0].payload)})
    case SendOther(request) => s.(sent := s.sent + {request})
    case Check(request, disabled) => CheckStep(s, request, disabled)
    case Insert(request) => InsertStep(s, request)
    case Acknowledge(batch, _) => s.(client := Acknowledged(s.client, batch.id))
    case Poison(batch, _) => s.(client := Discarded(s.client, batch.id))
    case Corrupt(id) => s.(client := Discarded(s.client, id))
    case EditPlaylists(playlists) => s.(server := s.server.(playlists := playlists))
  }

  ghost predicate Initial(s: State) {
    && s.client == Client([], [], [], [], [])
    && s.server.records == map[] && s.server.checked == {} && s.sent == {} && s.replies == {}
  }

  ghost predicate Run(s: State, steps: seq<Step>, s': State)
    decreases |steps|
  {
    if steps == [] then s == s'
    else Enabled(s, steps[0]) && Run(Next(s, steps[0]), steps[1..], s')
  }

  // ---- The server's part of the invariant ----

  ghost predicate Known(playlists: map<nat, Playlist>, b: Batch) {
    && b.playlistId in playlists && playlists[b.playlistId].published && Acceptable(playlists[b.playlistId], b)
  }

  /** Batch ids are keys and event ids are unique over all stored batches. */
  ghost predicate RecordsSound(playlists: map<nat, Playlist>, records: Records) {
    && (forall k :: k in records ==> records[k].batch.id == k && Known(playlists, records[k].batch))
    && (forall j, k :: j in records && k in records && j != k ==>
          Members(Ids(records[j].batch.events)) !! Members(Ids(records[k].batch.events)))
  }

  ghost predicate IsStored(records: Records, device: nat, b: Batch) {
    b.id in records && records[b.id].device == device && SameEvidence(records[b.id].batch, b)
  }

  ghost predicate RepliesSound(playlists: map<nat, Playlist>, records: Records, replies: set<Reply>) {
    forall r :: r in replies && r.answer.Accepted? ==> IsStored(records, r.device, r.batch) && Known(playlists, r.batch)
  }

  ghost predicate CheckedSound(playlists: map<nat, Playlist>, checked: set<Request>) {
    forall r :: r in checked ==> Known(playlists, r.batch)
  }

  ghost predicate ServerSound(v: Server, replies: set<Reply>) {
    && RecordsSound(v.playlists, v.records) && CheckedSound(v.playlists, v.checked)
    && RepliesSound(v.playlists, v.records, replies)
  }

  lemma CheckKeeps(s: State, r: Request, disabled: bool)
    requires ServerSound(s.server, s.replies)
    ensures var s' := CheckStep(s, r, disabled); ServerSound(s'.server, s'.replies)
  {}

  lemma InsertKeepsRecords(playlists: map<nat, Playlist>, records: Records, device: nat, b: Batch)
    requires RecordsSound(playlists, records) && Known(playlists, b)
    ensures RecordsSound(playlists, InsertRecords(records, device, b))
  {
    if b.id !in records && !EventIdTaken(records, b) {
      forall k | k in records ensures Members(Ids(records[k].batch.events)) !! Members(Ids(b.events)) {}
      NewRecordKeeps(playlists, records, Record(device, b));
    }
  }

  lemma NewRecordKeeps(playlists: map<nat, Playlist>, records: Records, r: Record)
    requires RecordsSound(playlists, records) && Known(playlists, r.batch) && r.batch.id !in records
    requires forall k :: k in records ==> Members(Ids(records[k].batch.events)) !! Members(Ids(r.batch.events))
    ensures RecordsSound(playlists, records[r.batch.id := r])
  {
    var records' := records[r.batch.id := r];
    forall j, k | j in records' && k in records' && j != k
      ensures Members(Ids(records'[j].batch.events)) !! Members(Ids(records'[k].batch.events))
    {
      if j == r.batch.id {
        assert records'[k] == records[k];
      } else if k == r.batch.id {
        assert records'[j] == records[j];
      }
    }
  }

  lemma InsertKeepsStored(records: Records, device: nat, b: Batch)
    ensures InsertAnswer(records, device, b).Accepted? ==> IsStored(InsertRecords(records, device, b), device, b)
    ensures forall d, x :: IsStored(records, d, x) ==> IsStored(InsertRecords(records, device, b), d, x)
  {}

  lemma InsertKeeps(s: State, r: Request)
    requires ServerSound(s.server, s.replies) && r in s.server.checked
    ensures var s' := InsertStep(s, r); ServerSound(s'.server, s'.replies)
  {
    InsertKeepsRecords(s.server.playlists, s.server.records, r.device, r.batch);
    InsertKeepsStored(s.server.records, r.device, r.batch);
  }

  lemma EditKeeps(v: Server, replies: set<Reply>, playlists: map<nat, Playlist>)
    requires ServerSound(v, replies) && PlaylistsKept(v.playlists, playlists)
    ensures ServerSound(v.(playlists := playlists), replies)
  {
    forall b | Known(v.playlists, b) ensures Known(playlists, b) {}
  }

  lemma StepServer(s: State, step: Step)
    requires ServerSound(s.server, s.replies) && Enabled(s, step)
    ensures var s' := Next(s, step); ServerSound(s'.server, s'.replies)
  {
    match step
    case Check(request, disabled) => CheckKeeps(s, request, disabled);
    case Insert(request) => InsertKeeps(s, request);
    case EditPlaylists(playlists) => EditKeeps(s.server, s.replies, playlists);
    case _ =>
  }

  // ---- The client's part of the invariant ----

  ghost function Sum(losses: seq<nat>): nat {
    if losses == [] then 0 else Sum(losses[..|losses| - 1]) + losses[|losses| - 1]
  }

  lemma SumExtend(losses: seq<nat>, n: nat)
    ensures Sum(losses + [n]) == Sum(losses) + n
  {
    assert (losses + [n])[..|losses|] == losses;
  }

  /** Every batch inserted is queued, acknowledged or removed, and as often as it was inserted. */
  ghost predicate Conserved(c: Client) {
    && multiset(c.inserted) == multiset(Payloads(c.pending)) + multiset(c.acked) + multiset(c.removed)
    && |c.removed| == Sum(c.losses)
  }

  ghost predicate QueueSound(c: Client) {
    && (forall k :: 0 <= k < |c.pending| ==> c.pending[k].id == c.pending[k].payload.id)
    && (forall i, j :: 0 <= i < j < |c.inserted| ==> c.inserted[i].id != c.inserted[j].id)
  }

  lemma PayloadsConcat(a: seq<QueueRow>, b: seq<QueueRow>)
    ensures Payloads(a + b) == Payloads(a) + Payloads(b)
  {}

  lemma PayloadsInsert(rows: seq<QueueRow>, r: QueueRow, n: nat)
    requires n <= |rows|
    ensures multiset(Payloads(rows[..n] + [r] + rows[n..])) == multiset(Payloads(rows)) + multiset{r.payload}
  {
    var a, b := rows[..n], rows[n..];
    assert rows == a + b;
    PayloadsConcat(a, b);
    PayloadsConcat(a + [r], b);
    PayloadsConcat(a, [r]);
    assert Payloads([r]) == [r.payload];
  }

  lemma EnqueueConserves(c: Client, r: QueueRow)
    requires Conserved(c) && !Holds(c.pending, r.id)
    ensures Conserved(EnqueuedRow(c, r))
  {
    PayloadsInsert(c.pending, r, PlaceFor(c.pending, r.createdAt));
    assert multiset(c.inserted + [r.payload]) == multiset(c.inserted) + multiset{r.payload};
  }

  lemma EvictConserves(c: Client, n: nat)
    requires Conserved(c) && n <= |c.pending|
    ensures Conserved(Evicted(c, n))
  {
    assert c.pending == c.pending[..n] + c.pending[n..];
    PayloadsConcat(c.pending[..n], c.pending[n..]);
    SumExtend(c.losses, n);
  }

  lemma WithoutPayload(rows: seq<QueueRow>, id: nat)
    requires Holds(rows, id)
    ensures PositionOf(rows, id) < |rows|
    ensures multiset(Payloads(rows))
            == multiset(Payloads(Without(rows, id))) + multiset{rows[PositionOf(rows, id)].payload}
  {
    var n := PositionOf(rows, id);
    var a, b := rows[..n], rows[n + 1..];
    assert rows == a + [rows[n]] + b;
    PayloadsConcat(a + [rows[n]], b);
    PayloadsConcat(a, [rows[n]]);
    PayloadsConcat(a, b);
    assert Payloads([rows[n]]) == [rows[n].payload];
  }

  lemma DiscardConserves(c: Client, id: nat)
    requires Conserved(c)
    ensures Conserved(Discarded(c, id))
  {
    if Holds(c.pending, id) {
      WithoutPayload(c.pending, id);
      SumExtend(c.losses, 1);
    }
  }

  lemma AcknowledgeConserves(c: Client, id: nat)
    requires Conserved(c)
    ensures Conserved(Acknowledged(c, id))
  {
    if Holds(c.pending, id) {
      WithoutPayload(c.pending, id);
    }
  }

  lemma StepConserves(s: State, step: Step)
    requires Conserved(s.client) && Enabled(s, step)
    ensures Conserved(Next(s, step).client)
  {
    match step
    case Enqueue(row) => EnqueueConserves(s.client, row);
    case Evict(n) => EvictConserves(s.client, n);
    case Acknowledge(batch, _) => AcknowledgeConserves(s.client, batch.id);
    case Poison(batch, _) => DiscardConserves(s.client, batch.id);
    case Corrupt(id) => DiscardConserves(s.client, id);
    case _ =>
  }

  lemma StepQueue(s: State, step: Step)
    requires QueueSound(s.client) && Enabled(s, step)
    ensures QueueSound(Next(s, step).client)
  {}

  // ---- What ties the two together ----

  /** Requests of this player are batches it inserted; the server handles, answers and stores only what was
      sent. */
  ghost predicate TrafficSound(s: State) {
    && (forall r :: r in s.sent && r.device == ME ==> r.batch in s.client.inserted)
    && (forall r :: r in s.server.checked ==> r in s.sent)
    && (forall r :: r in s.replies ==> Request(r.device, r.batch) in s.sent)
    && (forall k :: k in s.server.records ==> Request(s.server.records[k].device, s.server.records[k].batch) in s.sent)
  }

  ghost predicate WasAccepted(replies: set<Reply>, device: nat, b: Batch) {
    exists r :: r in replies && r.device == device && r.batch == b && r.answer.Accepted?
  }

  ghost predicate AckedSound(acked: seq<Batch>, replies: set<Reply>) {
    forall k :: 0 <= k < |acked| ==> WasAccepted(replies, ME, acked[k])
  }

  ghost predicate Inv(s: State) {
    && ServerSound(s.server, s.replies) && Conserved(s.client) && QueueSound(s.client)
    && TrafficSound(s) && AckedSound(s.client.acked, s.replies)
  }

  lemma PendingWasInserted(c: Client, k: nat)
    requires Conserved(c) && k < |c.pending|
    ensures c.pending[k].payload in c.inserted
  {
    assert Payloads(c.pending)[k] in multiset(Payloads(c.pending));
    assert c.pending[k].payload in multiset(c.inserted);
  }

  lemma StepTraffic(s: State, step: Step)
    requires TrafficSound(s) && Conserved(s.client) && Enabled(s, step)
    ensures TrafficSound(Next(s, step))
  {
    if step.Send? {
      PendingWasInserted(s.client, 0);
    }
  }

  /** The queued batch with the id of an accepted one is that batch. */
  lemma AcceptedIsQueued(s: State, b: Batch)
    requires Inv(s) && Holds(s.client.pending, b.id) && Request(ME, b) in s.sent
    ensures var n := PositionOf(s.client.pending, b.id); n < |s.client.pending| && s.client.pending[n].payload == b
  {
    var n := PositionOf(s.client.pending, b.id);
    PendingWasInserted(s.client, n);
    var i :| 0 <= i < |s.client.inserted| && s.client.inserted[i] == b;
    var j :| 0 <= j < |s.client.inserted| && s.client.inserted[j] == s.client.pending[n].payload;
    assert s.client.inserted[i].id == s.client.inserted[j].id;
  }

  lemma MoreReplies(acked: seq<Batch>, replies: set<Reply>, replies': set<Reply>)
    requires AckedSound(acked, replies) && replies <= replies'
    ensures AckedSound(acked, replies')
  {
    forall k | 0 <= k < |acked| ensures WasAccepted(replies', ME, acked[k]) {
      var r :| r in replies && r.device == ME && r.batch == acked[k] && r.answer.Accepted?;
      assert r in replies';
    }
  }

  lemma AcknowledgeAcked(s: State, b: Batch, duplicate: bool)
    requires Inv(s) && Reply(ME, b, Accepted(duplicate)) in s.replies
    ensures AckedSound(Acknowledged(s.client, b.id).acked, s.replies)
  {
    var r := Reply(ME, b, Accepted(duplicate));
    assert r.device == ME && r.batch == b && r.answer.Accepted?;
    if Holds(s.client.pending, b.id) {
      AcceptedIsQueued(s, b);
    }
  }

  lemma StepAcked(s: State, step: Step)
    requires Inv(s) && Enabled(s, step)
    ensures AckedSound(Next(s, step).client.acked, Next(s, step).replies)
  {
    if step.Acknowledge? {
      AcknowledgeAcked(s, step.batch, step.duplicate);
    } else {
      assert Next(s, step).client.acked == s.client.acked;
      MoreReplies(s.client.acked, s.replies, Next(s, step).replies);
    }
  }

  lemma StepInv(s: State, step: Step)
    requires Inv(s) && Enabled(s, step)
    ensures Inv(Next(s, step)) && s.replies <= Next(s, step).replies
  {
    StepServer(s, step);
    StepConserves(s, step);
    StepQueue(s, step);
    StepTraffic(s, step);
    StepAcked(s, step);
  }

  lemma {:induction false} RunInv(s: State, steps: seq<Step>, s': State)
    requires Inv(s) && Run(s, steps, s')
    ensures Inv(s') && s.replies <= s'.replies
    decreases |steps|
  {
    if steps != [] {
      StepInv(s, steps[0]);
      RunInv(Next(s, steps[0]), steps[1..], s');
    }
  }

  // ---- What every run guarantees ----

  /** Batches ever inserted = queued + acknowledged + the removed_batches of all loss events; each single
      batch is in exactly one of the three. */
  lemma EvidenceIsConserved(s0: State, steps: seq<Step>, s: State)
    requires Initial(s0) && Run(s0, steps, s)
    ensures |s.client.inserted| == |s.client.pending| + |s.client.acked| + Sum(s.client.losses)
    ensures forall b :: b in s.client.inserted ==>
              multiset(Payloads(s.client.pending))[b] + multiset(s.client.acked)[b] + multiset(s.client.removed)[b] == 1
  {
    RunInv(s0, steps, s);
    var c := s.client;
    assert |multiset(c.inserted)| == |multiset(Payloads(c.pending))| + |multiset(c.acked)| + |multiset(c.removed)|;
    forall b | b in c.inserted ensures multiset(c.inserted)[b] == 1 {
      OccursOnce(c.inserted, b);
    }
  }

  lemma {:induction false} OccursOnce(s: seq<Batch>, b: Batch)
    requires forall i, j :: 0 <= i < j < |s| ==> s[i].id != s[j].id
    ensures multiset(s)[b] == if b in s then 1 else 0
  {
    if s != [] {
      var last := |s| - 1;
      assert s == s[..last] + [s[last]];
      OccursOnce(s[..last], b);
    }
  }

  /** What the player was told is stored, is stored: its id, under this device, with this evidence. */
  lemma AcknowledgedIsStored(s0: State, steps: seq<Step>, s: State, b: Batch)
    requires Initial(s0) && Run(s0, steps, s) && b in s.client.acked
    ensures IsStored(s.server.records, ME, b)
  {
    RunInv(s0, steps, s);
    var k :| 0 <= k < |s.client.acked| && s.client.acked[k] == b;
    assert WasAccepted(s.replies, ME, s.client.acked[k]);
  }

  lemma IdIsMember(events: seq<Event>, e: Event)
    requires e in events
    ensures e.id in Members(Ids(events))
  {
    var x :| 0 <= x < |events| && events[x] == e;
    assert Ids(events)[x] == e.id;
  }

  lemma SameIdSameEvent(events: seq<Event>, e: Event, f: Event)
    requires Distinct(Ids(events)) && e in events && f in events && e.id == f.id
    ensures e == f
  {
    var x :| 0 <= x < |events| && events[x] == e;
    var y :| 0 <= y < |events| && events[y] == f;
    assert Ids(events)[x] == Ids(events)[y];
  }

  lemma RecordsShareNoEvent(playlists: map<nat, Playlist>, records: Records, j: nat, k: nat, e: Event, f: Event)
    requires RecordsSound(playlists, records) && j in records && k in records
    requires e in records[j].batch.events && f in records[k].batch.events && e.id == f.id
    ensures j == k && e == f
  {
    IdIsMember(records[j].batch.events, e);
    IdIsMember(records[k].batch.events, f);
    if j == k {
      SameIdSameEvent(records[j].batch.events, e, f);
    }
  }

  /** No event id is ever stored twice. */
  lemma EventsAreStoredOnce(s0: State, steps: seq<Step>, s: State, j: nat, k: nat, e: Event, f: Event)
    requires Initial(s0) && Run(s0, steps, s) && j in s.server.records && k in s.server.records
    requires e in s.server.records[j].batch.events && f in s.server.records[k].batch.events && e.id == f.id
    ensures j == k && e == f
  {
    RunInv(s0, steps, s);
    RecordsShareNoEvent(s.server.playlists, s.server.records, j, k, e, f);
  }

  /** Once accepted, a batch is answered as a duplicate whenever it is seen again, by the checks or by an
      insertion that was under way, as long as its device is not disabled. It is never refused. */
  lemma ReplayIsDuplicate(s0: State, steps: seq<Step>, s: State, steps': seq<Step>, s': State, r: Reply)
    requires Initial(s0) && Run(s0, steps, s) && Run(s, steps', s')
    requires r in s.replies && r.answer.Accepted?
    ensures Checked(s'.server.playlists, s'.server.records, r.device, false, r.batch) == Some(Accepted(true))
    ensures InsertAnswer(s'.server.records, r.device, r.batch) == Accepted(true)
  {
    RunInv(s0, steps, s);
    RunInv(s, steps', s');
  }
}
