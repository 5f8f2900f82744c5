/** Which stream sends next: update(), the search of writeDataChunk and its result. */
module Selection {
  import opened Common
  import opened Chunks
  import opened Outgoing
  import opened Filling
  import opened Scheduler
  import opened Codec
  import opened Tx = TxModel
  import TxOrder
  import SenderLaws
  import TxStreams

  // ------------------------------------------------- which stream sends next

  ghost predicate DistinctIds(ids: seq<byte>) {
    forall i, j :: 0 <= i < j < |ids| ==> ids[i] != ids[j]
  }

  ghost predicate Priorities(priority: map<byte, nat>) {
    forall id :: id in priority ==> priority[id] < CLASSES
  }

  /** The vectors of update(): each stream once, in the vector of its priority. */
  ghost predicate Grouped(vec: seq<seq<byte>>, priority: map<byte, nat>) {
    && |vec| == CLASSES
    && (forall k :: 0 <= k < CLASSES ==> DistinctIds(vec[k]))
    && (forall k, id :: 0 <= k < CLASSES ==> (id in vec[k] <==> id in priority && priority[id] == k))
  }

  // The scan of the stream stops at a packet.
  ghost predicate Ready(tx: TxMap, id: byte, env: TxEnv) {
    id in tx && TxOrder.AfterScan(tx[id], env).1
  }

  // What is left of the stream's queue has a packet to send.
  ghost predicate HasPacket(tx: TxMap, id: byte, env: TxEnv) {
    id in tx && TxOrder.HasWork(Process(tx[id], env.now).t, env)
  }

  lemma ReadyIff(tx: TxMap, id: byte, env: TxEnv)
    ensures Ready(tx, id, env) <==> HasPacket(tx, id, env)
  {
    if id in tx {
      TxOrder.ScanFindsIff(tx[id], env);
    }
  }

  ghost function ReadyOf(tx: TxMap, ids: seq<byte>, env: TxEnv): (r: seq<bool>)
    ensures |r| == |ids| && forall i :: 0 <= i < |ids| ==> r[i] == Ready(tx, ids[i], env)
  {
    seq(|ids|, i requires 0 <= i < |ids| => Ready(tx, ids[i], env))
  }

  // The stream a class offers: the first ready one from its vecIdx on.
  ghost function Offered(tx: TxMap, ids: seq<byte>, start: nat, env: TxEnv): Option<byte> {
    match Select(ReadyOf(tx, ids, env), start, 0)
    case None => None
    case Some(i) => Some(ids[i])
  }

  ghost function Offers(tx: TxMap, vec: seq<seq<byte>>, vecIdx: seq<nat>, env: TxEnv): (r: seq<Option<byte>>)
    requires |vec| == CLASSES == |vecIdx|
    ensures |r| == CLASSES && forall k :: 0 <= k < CLASSES ==> r[k] == Offered(tx, vec[k], vecIdx[k], env)
  {
    seq(CLASSES, k requires 0 <= k < CLASSES => Offered(tx, vec[k], vecIdx[k], env))
  }

  function Waiting(offers: seq<Option<byte>>): (r: seq<bool>)
    ensures |r| == |offers| && forall k :: 0 <= k < |offers| ==> r[k] == offers[k].Some?
  {
    seq(|offers|, k requires 0 <= k < |offers| => offers[k].Some?)
  }

  /** The class and the stream that send the next chunk. */
  function Chosen(offers: seq<Option<byte>>, sent: Counts, slot: nat): (r: Option<(nat, byte)>)
    requires |offers| == CLASSES && slot < CLASSES
    ensures r.Some? ==> r.value.0 < CLASSES && offers[r.value.0] == Some(r.value.1)
  {
    match Pick(Waiting(offers), sent, slot)
    case None => None
    case Some(k) => Some((k, offers[k].value))
  }

  lemma OfferedIff(tx: TxMap, ids: seq<byte>, start: nat, env: TxEnv)
    ensures Offered(tx, ids, start, env).Some? <==> exists id :: id in ids && Ready(tx, id, env)
    ensures Offered(tx, ids, start, env).Some? ==>
      Offered(tx, ids, start, env).value in ids && Ready(tx, Offered(tx, ids, start, env).value, env)
  {
    var ready := ReadyOf(tx, ids, env);
    SelectComplete(ready, start);
    if id :| id in ids && Ready(tx, id, env) {
      var i :| 0 <= i < |ids| && ids[i] == id;
      assert ready[i];
    }
  }

  /**
   Work conservation: no stream is chosen if and only if no queue has a packet to send, and
   the chosen one has one and is of the chosen class.
   */
  lemma WorkConserving(tx: TxMap, priority: map<byte, nat>, vec: seq<seq<byte>>, vecIdx: seq<nat>,
                       sent: Counts, slot: nat, env: TxEnv)
    requires Grouped(vec, priority) && tx.Keys == priority.Keys && |vecIdx| == CLASSES && slot < CLASSES
    requires Priorities(priority)
    ensures Chosen(Offers(tx, vec, vecIdx, env), sent, slot).None? <==> forall id :: !HasPacket(tx, id, env)
    ensures Chosen(Offers(tx, vec, vecIdx, env), sent, slot).Some? ==>
      var (k, id) := Chosen(Offers(tx, vec, vecIdx, env), sent, slot).value;
      id in priority && priority[id] == k && HasPacket(tx, id, env)
  {
    hide Pick, Offered, Ready, TxOrder.HasWork, Process;
    var offers := Offers(tx, vec, vecIdx, env);
    forall id
      ensures Ready(tx, id, env) <==> HasPacket(tx, id, env)
    {
      ReadyIff(tx, id, env);
    }
    forall k | 0 <= k < CLASSES
      ensures offers[k].Some? <==> exists id :: id in vec[k] && Ready(tx, id, env)
      ensures offers[k].Some? ==> offers[k].value in vec[k] && Ready(tx, offers[k].value, env)
    {
      OfferedIff(tx, vec[k], vecIdx[k], env);
    }
    forall id | HasPacket(tx, id, env)
      ensures Chosen(offers, sent, slot).Some?
    {
      assert id in vec[priority[id]] && offers[priority[id]].Some?;
    }
  }

  // The streams the scan has still to try are as they were.
  ghost predicate Untouched<V>(was: map<byte, V>, tx: map<byte, V>, ids: seq<byte>, at: nat, tried: nat)
    requires tried <= |ids|
  {
    forall m: nat :: m < |ids| - tried ==> Same(was, tx, Tried(ids, at, m))
  }

  ghost predicate Same<V>(was: map<byte, V>, tx: map<byte, V>, id: byte) {
    id in was && id in tx && tx[id] == was[id]
  }

  ghost function Tried(ids: seq<byte>, at: nat, m: nat): byte
    requires m < |ids|
  {
    ids[At(at, |ids|, m)]
  }

  lemma UntouchedStep<V>(was: map<byte, V>, tx: map<byte, V>, ids: seq<byte>, at: nat, tried: nat, h: V)
    requires tried < |ids| && Untouched(was, tx, ids, at, tried) && DistinctIds(ids)
    ensures Untouched(was, tx[ids[At(at, |ids|, 0)] := h], ids, At(at, |ids|, 0) + 1, tried + 1)
  {
    var here := At(at, |ids|, 0);
    var next := here + 1;
    var tx' := tx[ids[here] := h];
    forall m: nat | m < |ids| - tried - 1
      ensures Same(was, tx', Tried(ids, next, m))
    {
      AtStep(at, |ids|, m);
      assert Tried(ids, next, m) == Tried(ids, at, m + 1);
    }
  }

  // Each stream is as it was, or scanned once; the others of the connection are as they were.
  ghost predicate Scanned(was: TxMap, tx: TxMap, ids: seq<byte>, env: TxEnv) {
    && tx.Keys == was.Keys
    && (forall id :: id in tx && id !in ids ==> tx[id] == was[id])
    && (forall id :: id in tx ==> tx[id] == was[id] || tx[id] == TxOrder.AfterScan(was[id], env).0)
  }

  // The stream was ready, and is scanned now.
  ghost predicate OfferedNow(was: TxMap, tx: TxMap, id: byte, env: TxEnv) {
    id in was && id in tx && (tx[id], true) == TxOrder.AfterScan(was[id], env)
  }

  lemma ScanBegins(was: TxMap, ids: seq<byte>, start: nat, env: TxEnv)
    requires forall i :: 0 <= i < |ids| ==> ids[i] in was
    ensures Scanned(was, was, ids, env) && Untouched(was, was, ids, start, 0)
  {
  }

  lemma UntouchedFirst<V>(was: map<byte, V>, tx: map<byte, V>, ids: seq<byte>, at: nat, tried: nat)
    requires tried < |ids| && Untouched(was, tx, ids, at, tried)
    ensures Same(was, tx, ids[At(at, |ids|, 0)])
  {
    assert Same(was, tx, Tried(ids, at, 0));
  }

  lemma ScannedStep(was: TxMap, tx: TxMap, ids: seq<byte>, id: byte, env: TxEnv)
    requires Scanned(was, tx, ids, env) && id in ids && id in tx && tx[id] == was[id]
    ensures Scanned(was, tx[id := TxOrder.AfterScan(tx[id], env).0], ids, env)
  {
  }

  /** The search of one class: it offers the first ready stream, and scans none twice. */
  method ScanClass(was: TxMap, ids: seq<byte>, start: nat, env: TxEnv,
                   ghost enq: map<byte, seq<seq<byte>>>, ghost cs: seq<Chunk>)
    returns (tx: TxMap, offer: Option<byte>)
    requires DistinctIds(ids) && (forall i :: 0 <= i < |ids| ==> ids[i] in was)
    requires Sendable(was, enq) && AllRemember(was, cs, env.datagram)
    ensures Sendable(tx, enq) && AllRemember(tx, cs, env.datagram)
    ensures offer == Offered(was, ids, start, env)
    ensures offer.Some? ==> OfferedNow(was, tx, offer.value, env)
    ensures Scanned(was, tx, ids, env)
  {
    hide Sendable, AllRemember, TxOrder.AfterScan, Scanned, Untouched;
    assert Scanned(was, was, ids, env) && Untouched(was, was, ids, start, 0) by {
      ScanBegins(was, ids, start, env);
    }
    tx := was;
    ghost var ready := ReadyOf(was, ids, env);
    var tried: nat, at: nat := 0, start;
    while tried < |ids|
      invariant tried <= |ids|
      invariant Sendable(tx, enq) && AllRemember(tx, cs, env.datagram) && Scanned(was, tx, ids, env)
      invariant Select(ready, at, tried) == Select(ready, start, 0)
      invariant Untouched(was, tx, ids, at, tried)
    {
      ghost var before, from := tx, at;
      UntouchedFirst(was, tx, ids, at, tried);
      if at >= |ids| {
        at := 0;
      }
      var id := ids[at];
      ScanStep(tx, enq, id, env, cs);
      var h, found := TxStreams.ScanStream(tx[id], env);
      tx := tx[id := h];
      ScannedStep(was, before, ids, id, env);
      if found {
        return tx, Some(id);
      }
      UntouchedStep(was, before, ids, from, tried, h);
      at := at + 1;
      tried := tried + 1;
    }
    return tx, None;
  }

  /** The rebuilding loop of update(); the order inside a class is the map's. */
  method GroupByPriority(priority: map<byte, nat>) returns (vec: seq<seq<byte>>)
    requires Priorities(priority)
    ensures Grouped(vec, priority)
  {
    vec := [[], [], [], []];
    var rest := priority.Keys;
    while rest != {}
      invariant |vec| == CLASSES && rest <= priority.Keys
      invariant forall k :: 0 <= k < CLASSES ==> DistinctIds(vec[k])
      invariant forall k, id :: 0 <= k < CLASSES ==>
        (id in vec[k] <==> id in priority && id !in rest && priority[id] == k)
      decreases |rest|
    {
      var id :| id in rest;
      var k := priority[id];
      vec := vec[k := vec[k] + [id]];
      rest := rest - {id};
    }
  }

  // The classes from k on have not been searched yet.
  ghost predicate Later(was: TxMap, tx: TxMap, priority: map<byte, nat>, k: nat) {
    && was.Keys == tx.Keys == priority.Keys
    && forall id :: id in tx && priority[id] >= k ==> tx[id] == was[id]
  }

  // Each stream is as it was, or scanned once.
  ghost predicate ScannedOnce(was: TxMap, tx: TxMap, env: TxEnv) {
    && tx.Keys == was.Keys
    && forall id :: id in tx ==> tx[id] == was[id] || tx[id] == TxOrder.AfterScan(was[id], env).0
  }

  lemma OfferedSame(was: TxMap, tx: TxMap, ids: seq<byte>, start: nat, env: TxEnv)
    requires forall i :: 0 <= i < |ids| ==> Same(was, tx, ids[i])
    ensures Offered(tx, ids, start, env) == Offered(was, ids, start, env)
  {
    assert ReadyOf(tx, ids, env) == ReadyOf(was, ids, env);
  }

  lemma ClassSame(was: TxMap, tx: TxMap, priority: map<byte, nat>, vec: seq<seq<byte>>, k: nat)
    requires Grouped(vec, priority) && Later(was, tx, priority, k) && k < CLASSES
    ensures forall i :: 0 <= i < |vec[k]| ==> Same(was, tx, vec[k][i])
    ensures DistinctIds(vec[k])
  {
  }

  // The search of class k leaves the later classes alone.
  lemma ClassDone(was: TxMap, tx: TxMap, tx': TxMap, priority: map<byte, nat>, vec: seq<seq<byte>>, k: nat, env: TxEnv)
    requires Grouped(vec, priority) && k < CLASSES && Later(was, tx, priority, k)
    requires ScannedOnce(was, tx, env) && Scanned(tx, tx', vec[k], env)
    ensures Later(was, tx', priority, k + 1) && ScannedOnce(was, tx', env)
    ensures forall id :: id in tx && id in priority && priority[id] != k ==> Same(tx, tx', id)
  {
  }

  // What a class offered is still as its search left it.
  ghost predicate StillOffered(was: TxMap, tx: TxMap, priority: map<byte, nat>,
                               offers: seq<Option<byte>>, env: TxEnv) {
    forall k :: 0 <= k < |offers| && offers[k].Some? ==>
      OfferedNow(was, tx, offers[k].value, env) && offers[k].value in priority && priority[offers[k].value] == k
  }

  lemma StillOfferedStep(was: TxMap, tx: TxMap, tx': TxMap, priority: map<byte, nat>, vec: seq<seq<byte>>,
                         offers: seq<Option<byte>>, offer: Option<byte>, start: nat, env: TxEnv)
    requires var k := |offers|;
      && k < CLASSES && Grouped(vec, priority) && Later(was, tx, priority, k)
      && StillOffered(was, tx, priority, offers, env)
      && offer == Offered(tx, vec[k], start, env)
      && (offer.Some? ==> OfferedNow(tx, tx', offer.value, env))
      && forall id :: id in tx && id in priority && priority[id] != k ==> Same(tx, tx', id)
    ensures StillOffered(was, tx', priority, offers + [offer], env)
  {
    var k := |offers|;
    OfferedIff(tx, vec[k], start, env);
    hide TxOrder.AfterScan, Offered;
    if offer.Some? {
      assert offer.value in vec[k];
    }
  }

  /** The outer loop of the search: what each class offers does not depend on the others. */
  method ScanAll(was: TxMap, vec: seq<seq<byte>>, vecIdx: seq<nat>, env: TxEnv,
                 ghost priority: map<byte, nat>, ghost enq: map<byte, seq<seq<byte>>>, ghost cs: seq<Chunk>)
    returns (tx: TxMap, offers: seq<Option<byte>>)
    requires |vec| == CLASSES == |vecIdx| && Grouped(vec, priority) && priority.Keys == was.Keys
    requires Sendable(was, enq) && AllRemember(was, cs, env.datagram)
    ensures Sendable(tx, enq) && AllRemember(tx, cs, env.datagram)
    ensures offers == Offers(was, vec, vecIdx, env)
    ensures ScannedOnce(was, tx, env) && tx.Keys == was.Keys && StillOffered(was, tx, priority, offers, env)
  {
    hide Sendable, AllRemember, TxOrder.AfterScan, Grouped, Offered, Scanned, OfferedNow;
    tx, offers := was, [];
    while |offers| < CLASSES
      invariant |offers| <= CLASSES
      invariant Sendable(tx, enq) && AllRemember(tx, cs, env.datagram)
      invariant Later(was, tx, priority, |offers|) && ScannedOnce(was, tx, env)
      invariant forall k :: 0 <= k < |offers| ==> offers[k] == Offered(was, vec[k], vecIdx[k], env)
      invariant StillOffered(was, tx, priority, offers, env)
    {
      var k := |offers|;
      ClassSame(was, tx, priority, vec, k);
      OfferedSame(was, tx, vec[k], vecIdx[k], env);
      var next, offer := ScanClass(tx, vec[k], vecIdx[k], env, enq, cs);
      ClassDone(was, tx, next, priority, vec, k, env);
      StillOfferedStep(was, tx, next, priority, vec, offers, offer, vecIdx[k], env);
      tx, offers := next, offers + [offer];
    }
    assert offers == Offers(was, vec, vecIdx, env);
  }

  // ---------------------------------------------------- the chunk it sends

  function ListOf(c: Option<Chunk>): seq<Chunk> {
    if c.Some? then [c.value] else []
  }

  function SizeOf(c: Option<Chunk>): nat {
    if c.Some? then EncodedSize(c.value) else 0
  }

  // The class moves its rotation on, whether or not a chunk fitted.
  function Rotated(vecIdx: seq<nat>, vec: seq<seq<byte>>, choice: Option<(nat, byte)>): (r: seq<nat>)
    requires |vec| == |vecIdx|
    ensures |r| == |vecIdx|
  {
    if choice.Some? && choice.value.0 < |vec| && vec[choice.value.0] != [] then
      vecIdx[choice.value.0 := Moved(vecIdx[choice.value.0], |vec[choice.value.0]|)]
    else vecIdx
  }

  // The bytes of the chunk are counted for the class.
  function Accounted(sent: Counts, choice: Option<(nat, byte)>, c: Option<Chunk>): Counts {
    if choice.Some? && c.Some? then sent.Add(choice.value.0, EncodedSize(c.value)) else sent
  }

  /** The bytes of a chunk are counted once, and for the class that sent it. */
  lemma AccountedTotal(sent: Counts, choice: Option<(nat, byte)>, c: Option<Chunk>)
    ensures Accounted(sent, choice, c).Total() <= sent.Total() + SizeOf(c)
    ensures choice.Some? ==> Accounted(sent, choice, c).Total() == sent.Total() + SizeOf(c)
    ensures choice.Some? ==> Accounted(sent, choice, c).Of(choice.value.0) == sent.Of(choice.value.0) + SizeOf(c)
  {
  }

  /** The class that had its turn moves on by one stream, and only that class. */
  lemma RotatedIs(vecIdx: seq<nat>, vec: seq<seq<byte>>, k: nat, id: byte, j: nat)
    requires |vec| == |vecIdx| && k < |vec| && j < |vec| && vec[k] != []
    ensures Rotated(vecIdx, vec, Some((k, id)))[j] ==
      if j != k then vecIdx[j] else if vecIdx[k] + 1 < |vec[k]| then vecIdx[k] + 1 else 0
    ensures Rotated(vecIdx, vec, None) == vecIdx
  {
  }

  // The queue after its next chunk, if there is one.
  function AfterCut(h: TxHalf, available: nat, env: TxEnv): TxHalf
    requires h.t.packetFifoIdx < |h.t.fifo|
  {
    match NextChunk(h.t, available)
    case None => h
    case Some(c) => WriteChunk(h, c, env)
  }

  /** The chosen stream was ready and gave its next chunk, if it fits; no other stream gave one. */
  ghost predicate SentFrom(was: TxMap, tx: TxMap, id: byte, c: Option<Chunk>, available: nat, env: TxEnv) {
    && Ready(was, id, env)
    && c == NextChunk(TxOrder.AfterScan(was[id], env).0.t, available)
    && tx.Keys == was.Keys
    && tx[id] == AfterCut(TxOrder.AfterScan(was[id], env).0, available, env)
    && forall other :: other in tx && other != id ==>
      tx[other] == was[other] || tx[other] == TxOrder.AfterScan(was[other], env).0
  }

  ghost predicate Outcome(was: TxMap, tx: TxMap, choice: Option<(nat, byte)>, c: Option<Chunk>, available: nat, env: TxEnv) {
    match choice
    case None => c == None && ScannedOnce(was, tx, env)
    case Some((_, id)) => SentFrom(was, tx, id, c, available, env)
  }

  // Scanned streams offer what they offered before the scan.
  lemma OffersAfterScan(was: TxMap, tx: TxMap, vec: seq<seq<byte>>, vecIdx: seq<nat>, env: TxEnv)
    requires |vec| == CLASSES == |vecIdx| && ScannedOnce(was, tx, env)
    ensures Offers(tx, vec, vecIdx, env) == Offers(was, vec, vecIdx, env)
    ensures forall id :: Ready(tx, id, env) <==> Ready(was, id, env)
  {
    forall id
      ensures Ready(tx, id, env) <==> Ready(was, id, env)
    {
      if id in was {
        TxOrder.ScanAgain(was[id], env);
      }
    }
    hide Ready, ScannedOnce, Select;
    forall k | 0 <= k < CLASSES
      ensures Offered(tx, vec[k], vecIdx[k], env) == Offered(was, vec[k], vecIdx[k], env)
    {
      assert ReadyOf(tx, vec[k], env) == ReadyOf(was, vec[k], env);
    }
  }

  /**
   The datagram takes no more data: there is too little room, nothing is due on any stream, or the
   chunk of the stream whose turn it is does not fit. The rotations are those before that turn.
   */
  ghost predicate Full(tx: TxMap, vec: seq<seq<byte>>, vecIdx: seq<nat>, sent: Counts, slot: nat, room: nat, env: TxEnv)
    requires |vec| == CLASSES == |vecIdx| && slot < CLASSES
  {
    || room <= CHUNK_HEADER_B
    || match Chosen(Offers(tx, vec, vecIdx, env), sent, slot)
      case None => forall id :: !HasPacket(tx, id, env)
      case Some((_, id)) => Ready(tx, id, env) && NextChunk(TxOrder.AfterScan(tx[id], env).0.t, room) == None
  }

  lemma OutcomeFull(was: TxMap, tx: TxMap, priority: map<byte, nat>, vec: seq<seq<byte>>, vecIdx: seq<nat>,
                    sent: Counts, slot: nat, room: nat, env: TxEnv)
    requires Grouped(vec, priority) && was.Keys == priority.Keys && Priorities(priority)
    requires |vecIdx| == CLASSES && slot < CLASSES
    requires Outcome(was, tx, Chosen(Offers(was, vec, vecIdx, env), sent, slot), None, room, env)
    ensures Full(tx, vec, vecIdx, sent, slot, room, env)
  {
    OutcomeScanned(was, tx, Chosen(Offers(was, vec, vecIdx, env), sent, slot), room, env);
    OffersAfterScan(was, tx, vec, vecIdx, env);
    var choice := Chosen(Offers(was, vec, vecIdx, env), sent, slot);
    WorkConserving(tx, priority, vec, vecIdx, sent, slot, env);
    hide Chosen, Offers, HasPacket, Grouped, TxOrder.AfterScan, NextChunk;
    if choice.Some? {
      TxOrder.ScanAgain(was[choice.value.1], env);
    }
  }

  // A turn without a chunk only scans.
  lemma OutcomeScanned(was: TxMap, tx: TxMap, choice: Option<(nat, byte)>, room: nat, env: TxEnv)
    requires Outcome(was, tx, choice, None, room, env)
    ensures ScannedOnce(was, tx, env) && tx.Keys == was.Keys
    ensures choice.Some? ==> tx[choice.value.1] == TxOrder.AfterScan(was[choice.value.1], env).0
  {
    hide TxOrder.AfterScan, NextChunk;
  }

  /** A full datagram has fewer than 18 bytes left, or no stream has a packet that is due. */
  lemma FullMeans(tx: TxMap, vec: seq<seq<byte>>, vecIdx: seq<nat>, sent: Counts, slot: nat, room: nat, env: TxEnv)
    requires |vec| == CLASSES == |vecIdx| && slot < CLASSES && Full(tx, vec, vecIdx, sent, slot, room, env)
    ensures room < 18 || forall id :: !HasPacket(tx, id, env)
  {
    hide Chosen, Offers, HasPacket, TxOrder.AfterScan, NextChunk;
    var choice := Chosen(Offers(tx, vec, vecIdx, env), sent, slot);
    if room >= 18 && choice.Some? {
      SenderLaws.RoomIsEnough(TxOrder.AfterScan(tx[choice.value.1], env).0.t, room);
    }
  }

  // What the datagram and the queues keep, with the chunk added.
  ghost predicate KeepsAll(tx: TxMap, enq: map<byte, seq<seq<byte>>>, cs: seq<Chunk>, c: Option<Chunk>,
                           available: nat, datagram: nat) {
    && Sendable(tx, enq)
    && AllRemember(tx, cs + ListOf(c), datagram)
    && NoDuplicates(cs + ListOf(c))
    && (c.Some? ==> Encodable(c.value) && c.value.IsData() && 0 < EncodedSize(c.value) <= available)
  }

  /** The chunk of one ready stream, cut in place. */
  method CutFrom(was: TxMap, tx: TxMap, id: byte, available: nat, env: TxEnv,
                 ghost enq: map<byte, seq<seq<byte>>>, ghost cs: seq<Chunk>)
    returns (r: TxMap, c: Option<Chunk>)
    requires OfferedNow(was, tx, id, env) && ScannedOnce(was, tx, env) && available <= MAX_DATAGRAM
    requires Sendable(tx, enq) && AllRemember(tx, cs, env.datagram) && NoDuplicates(cs)
    ensures SentFrom(was, r, id, c, available, env) && r.Keys == was.Keys
    ensures c.Some? ==> c.value.stream == id
    ensures KeepsAll(r, enq, cs, c, available, env.datagram)
  {
    var h := tx[id];
    ReadyCandidate(was[id], h, env);
    SendableCandidate(tx, enq, id);
    CutKeeps(tx, enq, id, available, env, cs);
    CutIsSent(was, tx, id, available, env);
    hide Sendable, AllRemember, NoDuplicates, OfferedNow, ScannedOnce, SentFrom, KeepsAll, Skipped;
    hide TxOrder.AfterScan, NextChunk, WriteChunk;
    var cut, outside;
    cut, c, outside := TxStreams.CutChunk(h, available, env);
    r := tx[id := cut];
  }

  lemma SendableCandidate(tx: TxMap, enq: map<byte, seq<seq<byte>>>, id: byte)
    requires Sendable(tx, enq) && id in tx && tx[id].t.packetFifoIdx < |tx[id].t.fifo|
    requires !Candidate(tx[id]).isAcknowledged
    ensures Candidate(tx[id]).offset <= |Candidate(tx[id]).payload| <= UINT64_MAX
  {
  }

  lemma CutKeeps(tx: TxMap, enq: map<byte, seq<seq<byte>>>, id: byte, available: nat, env: TxEnv, cs: seq<Chunk>)
    requires id in tx && Sendable(tx, enq) && AllRemember(tx, cs, env.datagram) && NoDuplicates(cs)
    requires tx[id].t.packetFifoIdx < |tx[id].t.fifo| && !Skipped(Candidate(tx[id]), env)
    requires available <= MAX_DATAGRAM
    ensures KeepsAll(tx[id := AfterCut(tx[id], available, env)], enq, cs,
                     NextChunk(tx[id].t, available), available, env.datagram)
    ensures NextChunk(tx[id].t, available).Some? ==> NextChunk(tx[id].t, available).value.stream == id
  {
    hide Sendable, AllRemember, NoDuplicates, WriteChunk, NextChunk, Encodable, EncodedSize, Skipped;
    if NextChunk(tx[id].t, available).Some? {
      CutStep(tx, enq, id, available, env, cs);
      NextIsData(tx[id].t, available);
    }
    assert cs + [] == cs;
    assert tx[id := tx[id]] == tx;
  }

  lemma NextIsData(t: TxState, available: nat)
    requires t.packetFifoIdx < |t.fifo| && NextChunk(t, available).Some?
    ensures NextChunk(t, available).value.IsData()
  {
  }

  lemma CutIsSent(was: TxMap, tx: TxMap, id: byte, available: nat, env: TxEnv)
    requires OfferedNow(was, tx, id, env) && ScannedOnce(was, tx, env)
    requires tx[id].t.packetFifoIdx < |tx[id].t.fifo|
    ensures SentFrom(was, tx[id := AfterCut(tx[id], available, env)], id, NextChunk(tx[id].t, available), available, env)
  {
  }

  lemma ReadyCandidate(was: TxHalf, h: TxHalf, env: TxEnv)
    requires (h, true) == TxOrder.AfterScan(was, env)
    ensures h.t.packetFifoIdx < |h.t.fifo| && !Skipped(Candidate(h), env)
  {
  }

  /** writeDataChunk on the streams of a connection. */
  method SendNext(was: TxMap, vec: seq<seq<byte>>, vecIdx: seq<nat>, sent: Counts, slot: nat,
                  available: nat, env: TxEnv,
                  ghost priority: map<byte, nat>, ghost enq: map<byte, seq<seq<byte>>>, ghost cs: seq<Chunk>)
    returns (tx: TxMap, choice: Option<(nat, byte)>, c: Option<Chunk>)
    requires |vec| == CLASSES == |vecIdx| && Grouped(vec, priority) && priority.Keys == was.Keys
    requires slot < CLASSES && available <= MAX_DATAGRAM && sent.Total() < UINT32_MAX
    requires Sendable(was, enq) && AllRemember(was, cs, env.datagram) && NoDuplicates(cs)
    ensures choice == Chosen(Offers(was, vec, vecIdx, env), sent, slot)
    ensures Outcome(was, tx, choice, c, available, env) && tx.Keys == was.Keys
    ensures c.Some? ==> choice.Some? && c.value.stream == choice.value.1
    ensures choice.Some? ==> choice.value.0 < CLASSES && |vec[choice.value.0]| > 0
    ensures KeepsAll(tx, enq, cs, c, available, env.datagram)
  {
    hide Sendable, AllRemember, NoDuplicates, Grouped, SentFrom, ScannedOnce, Offered, OfferedNow, Pick;
    var offers;
    tx, offers := ScanAll(was, vec, vecIdx, env, priority, enq, cs);
    c := None;
    var k := PickClass(Waiting(offers), sent, slot);
    if k.None? {
      assert cs + [] == cs;
      return tx, None, None;
    }
    var id := offers[k.value].value;
    OfferedIff(was, vec[k.value], vecIdx[k.value], env);
    tx, c := CutFrom(was, tx, id, available, env, enq, cs);
    choice := Some((k.value, id));
  }
}
