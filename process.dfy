/** cmd/bm-server/processor/process.go: what the mail server does with a
    message once it sits in the processing queue. It either hands the
    message to a local account's inbox or uploads it to the recipient's
    server under a ticket, moving it to the retry queue when that fails.

    Every collaborator (the header store, the resolver, the account
    repository, the remote server's API, the file system) is one field of a
    `World` holding its answer. What the processor asks of them is kept in a
    trace of `Call`s; the queue sections are a map from message id to
    section and the scoreboard a set of message ids. */
module Processor {
  import opened Common

  datatype Section = Incoming | Processing | Retry

  /** The header fields the processor reads. */
  datatype Header = Header(from: string, to: string)

  /** What resolving an address gives: the account hash and its server. */
  datatype ResolveInfo = ResolveInfo(hash: string, server: string)

  datatype Ticket = Ticket(id: string, valid: bool)

  datatype MessageFile = MessageFile(id: string, path: string)

  /** The catalog upload part: `message.GetPath`, `ioutil.ReadFile`, then
      `UploadCatalog`. */
  datatype CatalogPart = CatalogPart(path: Option<Error>, read: Option<Error>, upload: Option<Error>)

  /** The answers of the collaborators, for one message. `work` is the proof
      `t.Pow.Work(0)` finds for a ticket. */
  datatype World = World(
    header: Result<Header>,
    resolve: Result<ResolveInfo>,
    accountExists: bool,
    sendToBox: Option<Error>,
    newClient: Option<Error>,
    ticket: Result<Ticket>,
    work: Ticket -> nat,
    ticketByProof: (string, nat) -> Result<Ticket>,
    headerUpload: Option<Error>,
    catalog: CatalogPart,
    files: Result<seq<MessageFile>>,
    blockOpen: MessageFile -> Option<Error>,
    blockUpload: MessageFile -> Option<Error>,
    complete: Option<Error>,
    remove: Option<Error>)

  datatype Call =
    | AddToScoreboard(msgId: string)
    | RemoveFromScoreboard(msgId: string)
    | GetMessageHeader(msgId: string)
    | Resolve(addr: string)
    | AccountExists(addr: string)
    | SendToInbox(hash: string, msgId: string)
    | MoveToRetryQueue(msgId: string)
    | NewAnonymousClient(server: string)
    | GetAnonymousTicket(from: string, to: string)
    | Work(ticketId: string)
    | GetTicketByProof(ticketId: string, proof: nat)
    | UploadHeader(ticketId: string)
    | UploadCatalog(ticketId: string)
    | GetFiles(msgId: string)
    | UploadBlock(ticketId: string, fileId: string)
    | DeleteMessage(ticketId: string)
    | CompleteUpload(ticketId: string)
    | RemoveMessage(msgId: string)
  {
    /** A call the upload half of deliverRemote makes. */
    predicate UploadStep()
    {
      UploadHeader? || UploadCatalog? || GetFiles? || UploadBlock? || DeleteMessage? || CompleteUpload? ||
      RemoveMessage?
    }

    /** A call to the remote server's API. */
    predicate Remote()
    {
      NewAnonymousClient? || GetAnonymousTicket? || GetTicketByProof? || UploadHeader? ||
      UploadCatalog? || UploadBlock? || DeleteMessage? || CompleteUpload?
    }
  }

  /** What a step does: the sections afterwards, the calls it makes in
      order, and the error it returns. */
  datatype Outcome = Outcome(sections: map<string, Section>, calls: seq<Call>, err: Option<Error>)

  /** `after` is `before` with at most `msgId` changed, and that only by
      leaving the processing queue: for the retry queue, or out of the queues
      altogether. */
  predicate Advances(before: map<string, Section>, after: map<string, Section>, msgId: string)
  {
    && after.Keys <= before.Keys
    && (forall id :: id in before && id != msgId ==> id in after && after[id] == before[id])
    && (msgId in after ==>
          msgId in before && (after[msgId] == before[msgId] || (before[msgId] == Processing && after[msgId] == Retry)))
  }

  /** MoveToRetryQueue(msgID) is not part of this model; it is taken to move
      a message that is in the processing queue to the retry queue and to
      leave any other message where it is. */
  function MoveToRetry(sections: map<string, Section>, msgId: string): (r: map<string, Section>)
    ensures r.Keys == sections.Keys
    ensures msgId in sections && sections[msgId] == Processing ==> r[msgId] == Retry
    ensures forall id :: id in sections && (id != msgId || sections[id] != Processing) ==> r[id] == sections[id]
    ensures Advances(sections, r, msgId)
  {
    if msgId in sections && sections[msgId] == Processing then sections[msgId := Retry] else sections
  }

  /** Moving a message twice is moving it once. */
  lemma MoveToRetryTwice(sections: map<string, Section>, msgId: string)
    ensures MoveToRetry(MoveToRetry(sections, msgId), msgId) == MoveToRetry(sections, msgId)
  {
  }

  /** RemoveMessage(SectionProcessing, msgID), likewise outside this model,
      is taken to drop a message from the processing queue when it succeeds.
      So is SendToBox, which moves the message from the processing queue
      into an account's box, outside the queues. */
  function RemoveFromProcessing(sections: map<string, Section>, msgId: string, failed: Option<Error>)
    : (r: map<string, Section>)
    ensures Advances(sections, r, msgId)
    ensures failed.None? && msgId in sections && sections[msgId] == Processing ==> msgId !in r
    ensures failed.Some? ==> r == sections
  {
    if failed.None? && msgId in sections && sections[msgId] == Processing then sections - {msgId} else sections
  }

  /** The error `g.Wait()` reports: the first failing part, in the order the
      parts were started. */
  function FirstError(errs: seq<Option<Error>>): (r: Option<Error>)
    ensures r.None? <==> forall i :: 0 <= i < |errs| ==> errs[i].None?
  {
    if errs == [] then None
    else
      var init := errs[..|errs| - 1];
      assert forall i :: 0 <= i < |init| ==> init[i] == errs[i];
      if FirstError(init).Some? then FirstError(init) else errs[|errs| - 1]
  }

  /** The reported error is the one with the lowest index: every part
      before it succeeded. */
  lemma {:induction false} FirstErrorIsFirst(errs: seq<Option<Error>>)
    ensures FirstError(errs).Some? ==>
      exists i :: 0 <= i < |errs| && errs[i] == FirstError(errs) && forall k :: 0 <= k < i ==> errs[k].None?
  {
    if errs != [] {
      var init := errs[..|errs| - 1];
      FirstErrorIsFirst(init);
      assert forall i :: 0 <= i < |init| ==> init[i] == errs[i];
      if FirstError(init).None? && FirstError(errs).Some? {
        var n := |errs| - 1;
        assert errs[n] == FirstError(errs) && forall k :: 0 <= k < n ==> errs[k].None?;
      }
    }
  }


  lemma FirstErrorSnoc(errs: seq<Option<Error>>, e: Option<Error>)
    ensures FirstError(errs + [e]) == if FirstError(errs).Some? then FirstError(errs) else e
  {
    assert (errs + [e])[..|errs|] == errs;
  }

  /** The catalog part's error: the path, the read, then the upload. */
  function CatalogError(c: CatalogPart): (e: Option<Error>)
    ensures e.None? <==> c.path.None? && c.read.None? && c.upload.None?
    ensures c.path.Some? ==> e == c.path
    ensures c.path.None? && c.read.Some? ==> e == c.read
  {
    if c.path.Some? then c.path else if c.read.Some? then c.read else c.upload
  }

  /** The catalog is uploaded only when its path and contents were read. */
  function CatalogCalls(ticketId: string, c: CatalogPart): (calls: seq<Call>)
    ensures calls == [] || calls == [UploadCatalog(ticketId)]
    ensures calls != [] <==> c.path.None? && c.read.None?
  {
    if c.path.None? && c.read.None? then [UploadCatalog(ticketId)] else []
  }

  /** The part for one file: open it, then upload it. */
  function BlockError(w: World, f: MessageFile): (e: Option<Error>)
    ensures e.None? <==> w.blockOpen(f).None? && w.blockUpload(f).None?
    ensures w.blockOpen(f).Some? ==> e == w.blockOpen(f)
  {
    if w.blockOpen(f).Some? then w.blockOpen(f) else w.blockUpload(f)
  }

  /** The results of the file parts, one per file, in launch order. */
  function BlockErrors(w: World, files: seq<MessageFile>): (errs: seq<Option<Error>>)
    ensures |errs| == |files|
  {
    if files == [] then []
    else BlockErrors(w, files[..|files| - 1]) + [BlockError(w, files[|files| - 1])]
  }

  /** Entry `i` of the file parts' results is the result of file `i`. */
  lemma {:induction false} BlockErrorsPointwise(w: World, files: seq<MessageFile>)
    ensures forall i :: 0 <= i < |files| ==> BlockErrors(w, files)[i] == BlockError(w, files[i])
  {
    if files != [] {
      var init := files[..|files| - 1];
      BlockErrorsPointwise(w, init);
      assert forall i :: 0 <= i < |init| ==> init[i] == files[i];
    }
  }

  /** The uploads the file parts make: one per file that opens. */
  function BlockCalls(w: World, ticketId: string, files: seq<MessageFile>): (calls: seq<Call>)
    ensures |calls| <= |files|
  {
    if files == [] then []
    else
      var last := files[|files| - 1];
      BlockCalls(w, ticketId, files[..|files| - 1]) + (if w.blockOpen(last).None? then [UploadBlock(ticketId, last.id)] else [])
  }

  /** The file parts upload each file that opens, and nothing else. */
  lemma {:induction false} BlockCallsMembers(w: World, ticketId: string, files: seq<MessageFile>)
    ensures forall c :: c in BlockCalls(w, ticketId, files) <==>
      exists i :: 0 <= i < |files| && w.blockOpen(files[i]).None? && c == UploadBlock(ticketId, files[i].id)
  {
    if files != [] {
      var init := files[..|files| - 1];
      BlockCallsMembers(w, ticketId, init);
      assert forall i :: 0 <= i < |init| ==> init[i] == files[i];
    }
  }

  /** Every part of the upload group, in the order they are started. */
  function PartErrors(w: World, files: seq<MessageFile>): (errs: seq<Option<Error>>)
    ensures |errs| == |files| + 2
    ensures errs[0] == w.headerUpload && errs[1] == CatalogError(w.catalog)
    ensures errs[2..] == BlockErrors(w, files)
  {
    [w.headerUpload, CatalogError(w.catalog)] + BlockErrors(w, files)
  }

  /** One more file adds its part's error and, when it opens, its upload. */
  lemma PartsSnoc(w: World, ticketId: string, files: seq<MessageFile>, i: nat)
    requires i < |files|
    ensures PartErrors(w, files[..i + 1]) == PartErrors(w, files[..i]) + [BlockError(w, files[i])]
    ensures BlockCalls(w, ticketId, files[..i + 1]) == BlockCalls(w, ticketId, files[..i])
      + (if w.blockOpen(files[i]).None? then [UploadBlock(ticketId, files[i].id)] else [])
  {
    assert files[..i + 1][..i] == files[..i];
  }

  /** deliverLocal(info, msgID): put the message in the account's inbox; on
      failure move it to the retry queue. The error it returns is always nil. */
  function DeliverLocalSpec(sections: map<string, Section>, info: ResolveInfo, msgId: string, w: World)
    : (r: Outcome)
    ensures r.err.None?
    ensures Advances(sections, r.sections, msgId)
    ensures w.sendToBox.None? ==>
      r == Outcome(RemoveFromProcessing(sections, msgId, None), [SendToInbox(info.hash, msgId)], None)
    ensures w.sendToBox.Some? ==>
      r == Outcome(MoveToRetry(sections, msgId), [SendToInbox(info.hash, msgId), MoveToRetryQueue(msgId)], None)
  {
    var calls := [SendToInbox(info.hash, msgId)];
    if w.sendToBox.Some? then Outcome(MoveToRetry(sections, msgId), calls + [MoveToRetryQueue(msgId)], None)
    else Outcome(RemoveFromProcessing(sections, msgId, None), calls, None)
  }

  /** The calls that start the header and catalog parts and list the files. */
  function StartCalls(ticketId: string, msgId: string, w: World): (calls: seq<Call>)
    ensures 2 <= |calls| <= 3
    ensures calls[0] == UploadHeader(ticketId) && calls[|calls| - 1] == GetFiles(msgId)
    ensures |calls| == 3 <==> w.catalog.path.None? && w.catalog.read.None?
  {
    [UploadHeader(ticketId)] + CatalogCalls(ticketId, w.catalog) + [GetFiles(msgId)]
  }

  /** After the join: delete the upload when a part failed, otherwise
      complete it and, when that succeeds, remove the local copy. */
  function JoinSpec(sections: map<string, Section>, joined: Option<Error>, t: Ticket, msgId: string, w: World)
    : (r: Outcome)
    ensures Advances(sections, r.sections, msgId)
    ensures r.err.None? <==> joined.None? && w.complete.None? && w.remove.None?
    ensures joined.Some? ==> r.err == joined && r.sections == sections
    ensures RemoveMessage(msgId) in r.calls <==> joined.None? && w.complete.None?
  {
    if joined.Some? then Outcome(sections, [DeleteMessage(t.id)], joined)
    else if w.complete.Some? then Outcome(sections, [CompleteUpload(t.id)], w.complete)
    else Outcome(RemoveFromProcessing(sections, msgId, w.remove), [CompleteUpload(t.id), RemoveMessage(msgId)], w.remove)
  }

  /** The upload half of deliverRemote, under a valid ticket. */
  function UploadSpec(sections: map<string, Section>, t: Ticket, msgId: string, w: World): (r: Outcome)
    ensures Advances(sections, r.sections, msgId)
    ensures r.err.None? <==>
      w.files.Ok? && FirstError(PartErrors(w, w.files.value)).None? && w.complete.None? && w.remove.None?
    ensures r.sections == sections || r.sections == RemoveFromProcessing(sections, msgId, None)
  {
    var started := StartCalls(t.id, msgId, w);
    match w.files
    case Fail(e) => Outcome(sections, started + [DeleteMessage(t.id)], Some(e))
    case Ok(files) =>
      var j := JoinSpec(sections, FirstError(PartErrors(w, files)), t, msgId, w);
      j.(calls := started + BlockCalls(w, t.id, files) + j.calls)
  }

  /** The proof-of-work branch of deliverRemote: work out the ticket's
      challenge and ask for a new ticket with the proof; a refused or still
      invalid ticket moves the message to the retry queue. */
  function ResubmitSpec(sections: map<string, Section>, t: Ticket, msgId: string, w: World): (r: Outcome)
    ensures Advances(sections, r.sections, msgId)
    ensures |r.calls| >= 3 && r.calls[0] == Work(t.id) && r.calls[1] == GetTicketByProof(t.id, w.work(t))
  {
    var proof := w.work(t);
    var worked := [Work(t.id), GetTicketByProof(t.id, proof)];
    match w.ticketByProof(t.id, proof)
    case Fail(e) => Outcome(MoveToRetry(sections, msgId), worked + [MoveToRetryQueue(msgId)], Some(e))
    case Ok(t2) =>
      if !t2.valid then Outcome(MoveToRetry(sections, msgId), worked + [MoveToRetryQueue(msgId)], None)
      else
        var up := UploadSpec(sections, t2, msgId, w);
        up.(calls := worked + up.calls)
  }

  /** deliverRemote(header, info, msgID): get a ticket, doing proof-of-work
      first when the server asks for it, then upload the parts. */
  function DeliverRemoteSpec(sections: map<string, Section>, header: Header, info: ResolveInfo, msgId: string,
                             w: World)
    : (r: Outcome)
    ensures Advances(sections, r.sections, msgId)
    ensures r.calls != [] && r.calls[0] == NewAnonymousClient(info.server)
    ensures w.newClient.Some? ==> r.err == w.newClient && r.sections == sections
    ensures w.newClient.None? && w.ticket.Fail? ==> r.err == Some(w.ticket.err) && r.sections == sections
  {
    if w.newClient.Some? then Outcome(sections, [NewAnonymousClient(info.server)], w.newClient)
    else
      var asked := [NewAnonymousClient(info.server), GetAnonymousTicket(header.from, info.hash)];
      match w.ticket
      case Fail(e) => Outcome(sections, asked, Some(e))
      case Ok(t) =>
        var rest := if t.valid then UploadSpec(sections, t, msgId, w) else ResubmitSpec(sections, t, msgId, w);
        rest.(calls := asked + rest.calls)
  }

  /** The delivery ProcessMessage picks: local when the account exists. */
  function DeliverSpec(sections: map<string, Section>, h: Header, info: ResolveInfo, msgId: string, w: World)
    : (r: Outcome)
    ensures Advances(sections, r.sections, msgId)
    ensures w.accountExists ==> r.err.None?
  {
    if w.accountExists then DeliverLocalSpec(sections, info, msgId, w)
    else DeliverRemoteSpec(sections, h, info, msgId, w)
  }

  /** The body of ProcessMessage between the scoreboard updates. */
  function ProcessBodySpec(sections: map<string, Section>, msgId: string, w: World): (r: Outcome)
    ensures Advances(sections, r.sections, msgId)
    ensures r.err.None?
    ensures r.calls != [] && r.calls[0] == GetMessageHeader(msgId)
  {
    match w.header
    case Fail(_) => Outcome(MoveToRetry(sections, msgId), [GetMessageHeader(msgId), MoveToRetryQueue(msgId)], None)
    case Ok(h) =>
      match w.resolve
      case Fail(_) =>
        Outcome(MoveToRetry(sections, msgId), [GetMessageHeader(msgId), Resolve(h.to), MoveToRetryQueue(msgId)], None)
      case Ok(info) =>
        var checked := [GetMessageHeader(msgId), Resolve(h.to), AccountExists(h.to)];
        var d := DeliverSpec(sections, h, info, msgId, w);
        if d.err.Some? then Outcome(MoveToRetry(d.sections, msgId), checked + d.calls + [MoveToRetryQueue(msgId)], None)
        else Outcome(d.sections, checked + d.calls, None)
  }

  /** ProcessMessage(msgID): the whole run, scoreboard updates included. */
  function ProcessSpec(sections: map<string, Section>, msgId: string, w: World): (r: Outcome)
    ensures Advances(sections, r.sections, msgId)
    ensures r.err.None?
  {
    var body := ProcessBodySpec(sections, msgId, w);
    Outcome(body.sections, [AddToScoreboard(msgId)] + body.calls + [RemoveFromScoreboard(msgId)], None)
  }

  /** How many times a trace moves `msgId` to the retry queue. */
  function RetryMoves(calls: seq<Call>, msgId: string): nat
  {
    multiset(calls)[MoveToRetryQueue(msgId)]
  }

  /** The moves of a trace are those of its parts. */
  lemma RetryMovesSplit(a: seq<Call>, b: seq<Call>, c: seq<Call>, msgId: string)
    ensures RetryMoves(a + b + c, msgId) == RetryMoves(a, msgId) + RetryMoves(b, msgId) + RetryMoves(c, msgId)
  {
    assert multiset(a + b + c) == multiset(a) + multiset(b) + multiset(c);
  }

  // ---------------------------------------------------------------------
  // Properties of a run

  /** The body of a run whose header reads and whose recipient resolves:
      the checks, the delivery, and a move when the delivery fails. */
  lemma BodyDelivers(sections: map<string, Section>, msgId: string, w: World)
    requires w.header.Ok? && w.resolve.Ok?
    ensures var h := w.header.value;
      var d := DeliverSpec(sections, h, w.resolve.value, msgId, w);
      ProcessBodySpec(sections, msgId, w) == Outcome(
        if d.err.Some? then MoveToRetry(d.sections, msgId) else d.sections,
        [GetMessageHeader(msgId), Resolve(h.to), AccountExists(h.to)] + d.calls
          + (if d.err.Some? then [MoveToRetryQueue(msgId)] else []),
        None)
  {
  }

  /** A run whose header reads and whose recipient resolves is its delivery,
      followed by a move to the retry queue when the delivery fails. */
  lemma ProcessDelivers(sections: map<string, Section>, msgId: string, w: World)
    requires w.header.Ok? && w.resolve.Ok?
    ensures var h := w.header.value;
      var d := DeliverSpec(sections, h, w.resolve.value, msgId, w);
      ProcessSpec(sections, msgId, w) == Outcome(
        if d.err.Some? then MoveToRetry(d.sections, msgId) else d.sections,
        [AddToScoreboard(msgId), GetMessageHeader(msgId), Resolve(h.to), AccountExists(h.to)] + d.calls
          + (if d.err.Some? then [MoveToRetryQueue(msgId)] else []) + [RemoveFromScoreboard(msgId)],
        None)
  {
    BodyDelivers(sections, msgId, w);
    var h := w.header.value;
    var d := DeliverSpec(sections, h, w.resolve.value, msgId, w);
    var moved := if d.err.Some? then [MoveToRetryQueue(msgId)] else [];
    assert [AddToScoreboard(msgId)] + ([GetMessageHeader(msgId), Resolve(h.to), AccountExists(h.to)] + d.calls + moved)
      + [RemoveFromScoreboard(msgId)]
      == [AddToScoreboard(msgId), GetMessageHeader(msgId), Resolve(h.to), AccountExists(h.to)] + d.calls + moved
         + [RemoveFromScoreboard(msgId)];
  }

  lemma BlockCallsAreUploads(w: World, ticketId: string, files: seq<MessageFile>)
    ensures forall c :: c in BlockCalls(w, ticketId, files) ==> c.UploadBlock?
  {
    BlockCallsMembers(w, ticketId, files);
  }

  /** Every run enters the message in the scoreboard first and takes it out
      last, whichever way it ends. */
  lemma ScoreboardBrackets(sections: map<string, Section>, msgId: string, w: World)
    ensures var calls := ProcessSpec(sections, msgId, w).calls;
      |calls| >= 2 && calls[0] == AddToScoreboard(msgId) && calls[|calls| - 1] == RemoveFromScoreboard(msgId)
  {
  }

  /** An unreadable header sends the message to the retry queue; nothing is
      resolved and nothing delivered. */
  lemma UnreadableHeaderRetries(sections: map<string, Section>, msgId: string, w: World)
    requires w.header.Fail?
    ensures ProcessSpec(sections, msgId, w) == Outcome(
      MoveToRetry(sections, msgId),
      [AddToScoreboard(msgId), GetMessageHeader(msgId), MoveToRetryQueue(msgId), RemoveFromScoreboard(msgId)],
      None)
  {
  }

  /** A failed resolve sends the message to the retry queue before the
      account repository is asked, so even a local recipient is retried. */
  lemma ResolveFailureRetries(sections: map<string, Section>, msgId: string, w: World)
    requires w.header.Ok? && w.resolve.Fail?
    ensures ProcessSpec(sections, msgId, w) == Outcome(
      MoveToRetry(sections, msgId),
      [AddToScoreboard(msgId), GetMessageHeader(msgId), Resolve(w.header.value.to), MoveToRetryQueue(msgId),
       RemoveFromScoreboard(msgId)],
      None)
  {
  }

  /** The run for a local recipient: the inbox delivery, which takes the
      message out of the processing queue, or, when it fails, the move
      deliverLocal makes itself. */
  lemma LocalTrace(sections: map<string, Section>, msgId: string, w: World)
    requires w.header.Ok? && w.resolve.Ok? && w.accountExists
    ensures var h, info := w.header.value, w.resolve.value;
      ProcessSpec(sections, msgId, w) == Outcome(
        if w.sendToBox.Some? then MoveToRetry(sections, msgId) else RemoveFromProcessing(sections, msgId, None),
        [AddToScoreboard(msgId), GetMessageHeader(msgId), Resolve(h.to), AccountExists(h.to),
         SendToInbox(info.hash, msgId)] + (if w.sendToBox.Some? then [MoveToRetryQueue(msgId)] else [])
          + [RemoveFromScoreboard(msgId)],
        None)
  {
    ProcessDelivers(sections, msgId, w);
  }

  /** The local trace makes no call to a remote server and does no
      proof-of-work. */
  lemma LocalTraceStaysLocal(calls: seq<Call>, msgId: string, h: Header, info: ResolveInfo, failed: bool)
    requires calls == [AddToScoreboard(msgId), GetMessageHeader(msgId), Resolve(h.to), AccountExists(h.to),
                       SendToInbox(info.hash, msgId)] + (if failed then [MoveToRetryQueue(msgId)] else [])
                       + [RemoveFromScoreboard(msgId)]
    ensures forall c :: c in calls ==> !c.Remote() && !c.Work?
  {
    var before := [AddToScoreboard(msgId), GetMessageHeader(msgId), Resolve(h.to), AccountExists(h.to),
                   SendToInbox(info.hash, msgId)];
    var moves: seq<Call> := if failed then [MoveToRetryQueue(msgId)] else [];
    forall c | c in calls
      ensures !c.Remote() && !c.Work?
    {
      assert c in before || c in moves || c == RemoveFromScoreboard(msgId);
    }
  }

  /** The local trace moves the message once when the delivery fails. */
  lemma LocalTraceMoves(calls: seq<Call>, msgId: string, h: Header, info: ResolveInfo, failed: bool)
    requires calls == [AddToScoreboard(msgId), GetMessageHeader(msgId), Resolve(h.to), AccountExists(h.to),
                       SendToInbox(info.hash, msgId)] + (if failed then [MoveToRetryQueue(msgId)] else [])
                       + [RemoveFromScoreboard(msgId)]
    ensures SendToInbox(info.hash, msgId) in calls
    ensures RetryMoves(calls, msgId) == if failed then 1 else 0
  {
    var before := [AddToScoreboard(msgId), GetMessageHeader(msgId), Resolve(h.to), AccountExists(h.to),
                   SendToInbox(info.hash, msgId)];
    var moves: seq<Call> := if failed then [MoveToRetryQueue(msgId)] else [];
    RetryMovesSplit(before, moves, [RemoveFromScoreboard(msgId)], msgId);
    assert multiset(before)[MoveToRetryQueue(msgId)] == 0;
    assert calls[4] == SendToInbox(info.hash, msgId);
  }

  /** For a local recipient only the inbox delivery runs: no call goes to a
      remote server and no proof-of-work is done. A delivered message leaves
      the processing queue; since deliverLocal returns nil, a refused one is
      moved to the retry queue once, by deliverLocal itself. */
  lemma LocalDeliveryOnly(sections: map<string, Section>, msgId: string, w: World)
    requires w.header.Ok? && w.resolve.Ok? && w.accountExists
    ensures var r := ProcessSpec(sections, msgId, w);
      && (forall c :: c in r.calls ==> !c.Remote() && !c.Work?)
      && SendToInbox(w.resolve.value.hash, msgId) in r.calls
      && RetryMoves(r.calls, msgId) == (if w.sendToBox.Some? then 1 else 0)
      && r.sections == (if w.sendToBox.Some? then MoveToRetry(sections, msgId)
                        else RemoveFromProcessing(sections, msgId, None))
      && (w.sendToBox.None? && msgId in sections && sections[msgId] == Processing ==> msgId !in r.sections)
      && (w.sendToBox.Some? && msgId in sections && sections[msgId] == Processing ==> r.sections[msgId] == Retry)
  {
    LocalTrace(sections, msgId, w);
    var calls := ProcessSpec(sections, msgId, w).calls;
    LocalTraceStaysLocal(calls, msgId, w.header.value, w.resolve.value, w.sendToBox.Some?);
    LocalTraceMoves(calls, msgId, w.header.value, w.resolve.value, w.sendToBox.Some?);
  }

  /** Proof-of-work runs exactly when the first ticket the server gives is
      not valid. */
  lemma WorkOnlyForInvalidTicket(sections: map<string, Section>, header: Header, info: ResolveInfo, msgId: string,
                                 w: World)
    ensures (exists c :: c in DeliverRemoteSpec(sections, header, info, msgId, w).calls && c.Work?) <==>
      w.newClient.None? && w.ticket.Ok? && !w.ticket.value.valid
  {
    var r := DeliverRemoteSpec(sections, header, info, msgId, w);
    if w.newClient.None? && w.ticket.Ok? && !w.ticket.value.valid {
      assert r.calls[2] == Work(w.ticket.value.id);
    } else if w.newClient.None? && w.ticket.Ok? {
      UploadCalls(sections, w.ticket.value, msgId, w);
    }
  }

  /** The upload half only makes upload calls. */
  lemma UploadCalls(sections: map<string, Section>, t: Ticket, msgId: string, w: World)
    ensures forall c :: c in UploadSpec(sections, t, msgId, w).calls ==> c.UploadStep()
  {
    BlockCallsAreUploads(w, t.id, if w.files.Ok? then w.files.value else []);
  }

  /** The deliverRemote trace of a first ticket that is not valid and cannot
      be replaced by a valid one. */
  lemma RefusedResubmit(sections: map<string, Section>, h: Header, info: ResolveInfo, msgId: string, w: World)
    requires w.newClient.None? && w.ticket.Ok? && !w.ticket.value.valid
    requires var t2 := w.ticketByProof(w.ticket.value.id, w.work(w.ticket.value)); t2.Fail? || !t2.value.valid
    ensures var t := w.ticket.value;
      var t2 := w.ticketByProof(t.id, w.work(t));
      DeliverRemoteSpec(sections, h, info, msgId, w) == Outcome(
        MoveToRetry(sections, msgId),
        [NewAnonymousClient(info.server), GetAnonymousTicket(h.from, info.hash), Work(t.id),
         GetTicketByProof(t.id, w.work(t)), MoveToRetryQueue(msgId)],
        if t2.Fail? then Some(t2.err) else None)
  {
  }

  /** The run in which the resubmitted proof-of-work fails with an error. */
  lemma ResubmitErrorTrace(sections: map<string, Section>, msgId: string, w: World)
    requires w.header.Ok? && w.resolve.Ok? && !w.accountExists
    requires w.newClient.None? && w.ticket.Ok? && !w.ticket.value.valid
    requires w.ticketByProof(w.ticket.value.id, w.work(w.ticket.value)).Fail?
    ensures var h, info, t := w.header.value, w.resolve.value, w.ticket.value;
      ProcessSpec(sections, msgId, w) == Outcome(
        MoveToRetry(MoveToRetry(sections, msgId), msgId),
        [AddToScoreboard(msgId), GetMessageHeader(msgId), Resolve(h.to), AccountExists(h.to),
         NewAnonymousClient(info.server), GetAnonymousTicket(h.from, info.hash), Work(t.id),
         GetTicketByProof(t.id, w.work(t))] + [MoveToRetryQueue(msgId), MoveToRetryQueue(msgId)]
          + [RemoveFromScoreboard(msgId)],
        None)
  {
    ProcessDelivers(sections, msgId, w);
    RefusedResubmit(sections, w.header.value, w.resolve.value, msgId, w);
  }

  /** What the trace of a failed resubmission contains. */
  lemma ResubmitErrorCalls(calls: seq<Call>, msgId: string, h: Header, info: ResolveInfo, t: Ticket, proof: nat)
    requires calls == [AddToScoreboard(msgId), GetMessageHeader(msgId), Resolve(h.to), AccountExists(h.to),
                       NewAnonymousClient(info.server), GetAnonymousTicket(h.from, info.hash), Work(t.id),
                       GetTicketByProof(t.id, proof)] + [MoveToRetryQueue(msgId), MoveToRetryQueue(msgId)]
                       + [RemoveFromScoreboard(msgId)]
    ensures RetryMoves(calls, msgId) == 2
  {
    var before := [AddToScoreboard(msgId), GetMessageHeader(msgId), Resolve(h.to), AccountExists(h.to),
                   NewAnonymousClient(info.server), GetAnonymousTicket(h.from, info.hash), Work(t.id),
                   GetTicketByProof(t.id, proof)];
    var moves := [MoveToRetryQueue(msgId), MoveToRetryQueue(msgId)];
    RetryMovesSplit(before, moves, [RemoveFromScoreboard(msgId)], msgId);
    assert multiset(before)[MoveToRetryQueue(msgId)] == 0;
    assert multiset(moves)[MoveToRetryQueue(msgId)] == 2;
  }

  /** A resubmission that fails with an error moves the message and returns
      the error, so ProcessMessage moves it a second time, which changes
      nothing. */
  lemma ResubmitErrorMovesTwice(sections: map<string, Section>, msgId: string, w: World)
    requires w.header.Ok? && w.resolve.Ok? && !w.accountExists
    requires w.newClient.None? && w.ticket.Ok? && !w.ticket.value.valid
    requires w.ticketByProof(w.ticket.value.id, w.work(w.ticket.value)).Fail?
    ensures var r := ProcessSpec(sections, msgId, w);
      && RetryMoves(r.calls, msgId) == 2
      && r.sections == MoveToRetry(sections, msgId)
  {
    ResubmitErrorTrace(sections, msgId, w);
    MoveToRetryTwice(sections, msgId);
    ResubmitErrorCalls(ProcessSpec(sections, msgId, w).calls, msgId, w.header.value, w.resolve.value,
                       w.ticket.value, w.work(w.ticket.value));
  }

  /** The run in which the resubmitted proof-of-work gives a still-invalid
      ticket without an error. */
  lemma ResubmitInvalidTrace(sections: map<string, Section>, msgId: string, w: World)
    requires w.header.Ok? && w.resolve.Ok? && !w.accountExists
    requires w.newClient.None? && w.ticket.Ok? && !w.ticket.value.valid
    requires var t2 := w.ticketByProof(w.ticket.value.id, w.work(w.ticket.value)); t2.Ok? && !t2.value.valid
    ensures var h, info, t := w.header.value, w.resolve.value, w.ticket.value;
      ProcessSpec(sections, msgId, w) == Outcome(
        MoveToRetry(sections, msgId),
        [AddToScoreboard(msgId), GetMessageHeader(msgId), Resolve(h.to), AccountExists(h.to),
         NewAnonymousClient(info.server), GetAnonymousTicket(h.from, info.hash), Work(t.id),
         GetTicketByProof(t.id, w.work(t))] + [MoveToRetryQueue(msgId)] + [RemoveFromScoreboard(msgId)],
        None)
  {
    ProcessDelivers(sections, msgId, w);
    RefusedResubmit(sections, w.header.value, w.resolve.value, msgId, w);
  }

  /** What the trace of a refused resubmission contains. */
  lemma ResubmitInvalidCalls(calls: seq<Call>, msgId: string, h: Header, info: ResolveInfo, t: Ticket, proof: nat)
    requires calls == [AddToScoreboard(msgId), GetMessageHeader(msgId), Resolve(h.to), AccountExists(h.to),
                       NewAnonymousClient(info.server), GetAnonymousTicket(h.from, info.hash), Work(t.id),
                       GetTicketByProof(t.id, proof)] + [MoveToRetryQueue(msgId)] + [RemoveFromScoreboard(msgId)]
    ensures RetryMoves(calls, msgId) == 1
  {
    var before := [AddToScoreboard(msgId), GetMessageHeader(msgId), Resolve(h.to), AccountExists(h.to),
                   NewAnonymousClient(info.server), GetAnonymousTicket(h.from, info.hash), Work(t.id),
                   GetTicketByProof(t.id, proof)];
    RetryMovesSplit(before, [MoveToRetryQueue(msgId)], [RemoveFromScoreboard(msgId)], msgId);
    assert multiset(before)[MoveToRetryQueue(msgId)] == 0;
  }

  /** A resubmission that gives a still-invalid ticket without an error moves
      the message and returns nil: it is moved once. */
  lemma ResubmitInvalidMovesOnce(sections: map<string, Section>, msgId: string, w: World)
    requires w.header.Ok? && w.resolve.Ok? && !w.accountExists
    requires w.newClient.None? && w.ticket.Ok? && !w.ticket.value.valid
    requires var t2 := w.ticketByProof(w.ticket.value.id, w.work(w.ticket.value)); t2.Ok? && !t2.value.valid
    ensures var r := ProcessSpec(sections, msgId, w);
      && RetryMoves(r.calls, msgId) == 1
      && r.sections == MoveToRetry(sections, msgId)
  {
    ResubmitInvalidTrace(sections, msgId, w);
    ResubmitInvalidCalls(ProcessSpec(sections, msgId, w).calls, msgId, w.header.value, w.resolve.value,
                         w.ticket.value, w.work(w.ticket.value));
  }

  /** With a valid ticket the header and catalog parts start, then one upload
      per message file that opens; failing to list the files deletes the
      upload and returns that error. */
  lemma UploadParts(sections: map<string, Section>, t: Ticket, msgId: string, w: World)
    ensures var r := UploadSpec(sections, t, msgId, w);
      && r.calls[0] == UploadHeader(t.id)
      && (w.catalog.path.None? && w.catalog.read.None? ==> r.calls[1] == UploadCatalog(t.id))
      && (w.files.Fail? ==> r.err == Some(w.files.err) && r.calls[|r.calls| - 1] == DeleteMessage(t.id)
                            && r.sections == sections)
      && (w.files.Ok? ==> forall i :: 0 <= i < |w.files.value| && w.blockOpen(w.files.value[i]).None? ==>
                            UploadBlock(t.id, w.files.value[i].id) in r.calls)
      && (forall fid :: UploadBlock(t.id, fid) in r.calls ==>
            w.files.Ok? && exists i :: 0 <= i < |w.files.value| && w.files.value[i].id == fid)
  {
    if w.files.Ok? {
      BlockCallsMembers(w, t.id, w.files.value);
    }
  }

  /** Any failed part deletes the upload and skips CompleteUpload and
      RemoveMessage; the message stays where it was. */
  lemma FailedPartDeletes(sections: map<string, Section>, t: Ticket, msgId: string, w: World)
    requires w.files.Ok?
    requires exists i :: 0 <= i < |PartErrors(w, w.files.value)| && PartErrors(w, w.files.value)[i].Some?
    ensures var r := UploadSpec(sections, t, msgId, w);
      && r.err.Some? && r.err in PartErrors(w, w.files.value)
      && r.calls[|r.calls| - 1] == DeleteMessage(t.id)
      && CompleteUpload(t.id) !in r.calls && RemoveMessage(msgId) !in r.calls
      && r.sections == sections
  {
    FirstErrorIsFirst(PartErrors(w, w.files.value));
    BlockCallsAreUploads(w, t.id, w.files.value);
  }

  /** The message leaves the processing queue only after CompleteUpload has
      succeeded, which needs every part to have succeeded. */
  lemma RemoveOnlyAfterComplete(sections: map<string, Section>, t: Ticket, msgId: string, w: World)
    ensures var r := UploadSpec(sections, t, msgId, w);
      RemoveMessage(msgId) in r.calls ==>
        && w.files.Ok? && FirstError(PartErrors(w, w.files.value)).None? && w.complete.None?
        && CompleteUpload(t.id) in r.calls
  {
    if w.files.Ok? {
      BlockCallsAreUploads(w, t.id, w.files.value);
    }
  }

  /** The deliverRemote trace when every step succeeds up to CompleteUpload. */
  lemma CompletedUpload(sections: map<string, Section>, h: Header, info: ResolveInfo, msgId: string, w: World)
    requires w.newClient.None? && w.ticket.Ok? && w.ticket.value.valid
    requires w.files.Ok? && FirstError(PartErrors(w, w.files.value)).None? && w.complete.None?
    ensures var t := w.ticket.value;
      DeliverRemoteSpec(sections, h, info, msgId, w) == Outcome(
        RemoveFromProcessing(sections, msgId, w.remove),
        [NewAnonymousClient(info.server), GetAnonymousTicket(h.from, info.hash), UploadHeader(t.id)]
          + CatalogCalls(t.id, w.catalog) + [GetFiles(msgId)] + BlockCalls(w, t.id, w.files.value)
          + [CompleteUpload(t.id), RemoveMessage(msgId)],
        w.remove)
  {
  }

  /** The whole run when every step of a remote delivery succeeds. */
  lemma RemoteSuccessTrace(sections: map<string, Section>, msgId: string, w: World)
    requires msgId in sections && sections[msgId] == Processing
    requires w.header.Ok? && w.resolve.Ok? && !w.accountExists
    requires w.newClient.None? && w.ticket.Ok? && w.ticket.value.valid
    requires w.files.Ok? && FirstError(PartErrors(w, w.files.value)).None?
    requires w.complete.None? && w.remove.None?
    ensures var h, info, t := w.header.value, w.resolve.value, w.ticket.value;
      ProcessSpec(sections, msgId, w) == Outcome(
        sections - {msgId},
        [AddToScoreboard(msgId), GetMessageHeader(msgId), Resolve(h.to), AccountExists(h.to)]
          + ([NewAnonymousClient(info.server), GetAnonymousTicket(h.from, info.hash), UploadHeader(t.id)]
             + CatalogCalls(t.id, w.catalog) + [GetFiles(msgId)] + BlockCalls(w, t.id, w.files.value)
             + [CompleteUpload(t.id), RemoveMessage(msgId)])
          + [RemoveFromScoreboard(msgId)],
        None)
  {
    ProcessDelivers(sections, msgId, w);
    CompletedUpload(sections, w.header.value, w.resolve.value, msgId, w);
  }

  /** The successful remote trace holds no move to the retry queue: its block
      part holds only uploads and its catalog part at most one upload. */
  lemma RemoteSuccessCalls(calls: seq<Call>, msgId: string, h: Header, info: ResolveInfo, ticketId: string,
                           catalog: seq<Call>, blocks: seq<Call>)
    requires catalog == [] || catalog == [UploadCatalog(ticketId)]
    requires forall c :: c in blocks ==> c.UploadBlock?
    requires calls == [AddToScoreboard(msgId), GetMessageHeader(msgId), Resolve(h.to), AccountExists(h.to)]
                      + ([NewAnonymousClient(info.server), GetAnonymousTicket(h.from, info.hash), UploadHeader(ticketId)]
                         + catalog + [GetFiles(msgId)] + blocks + [CompleteUpload(ticketId), RemoveMessage(msgId)])
                      + [RemoveFromScoreboard(msgId)]
    ensures RetryMoves(calls, msgId) == 0
  {
    var m := MoveToRetryQueue(msgId);
    assert multiset([AddToScoreboard(msgId), GetMessageHeader(msgId), Resolve(h.to), AccountExists(h.to)])[m] == 0;
    assert multiset([NewAnonymousClient(info.server), GetAnonymousTicket(h.from, info.hash), UploadHeader(ticketId)])[m]
      == 0;
    assert multiset(catalog)[m] == 0;
    assert multiset([GetFiles(msgId)])[m] == 0;
    assert multiset(blocks)[m] == 0 by {
      assert m !in blocks;
    }
    assert multiset([CompleteUpload(ticketId), RemoveMessage(msgId)])[m] == 0;
    assert multiset([RemoveFromScoreboard(msgId)])[m] == 0;
  }

  /** A delivery where every step succeeds takes the message out of the
      processing queue, and it is never moved to the retry queue. */
  lemma RemoteSuccessRemoves(sections: map<string, Section>, msgId: string, w: World)
    requires msgId in sections && sections[msgId] == Processing
    requires w.header.Ok? && w.resolve.Ok? && !w.accountExists
    requires w.newClient.None? && w.ticket.Ok? && w.ticket.value.valid
    requires w.files.Ok? && FirstError(PartErrors(w, w.files.value)).None?
    requires w.complete.None? && w.remove.None?
    ensures ProcessSpec(sections, msgId, w).sections == sections - {msgId}
    ensures RetryMoves(ProcessSpec(sections, msgId, w).calls, msgId) == 0
  {
    var t := w.ticket.value;
    RemoteSuccessTrace(sections, msgId, w);
    BlockCallsAreUploads(w, t.id, w.files.value);
    RemoteSuccessCalls(ProcessSpec(sections, msgId, w).calls, msgId, w.header.value, w.resolve.value, t.id,
                       CatalogCalls(t.id, w.catalog), BlockCalls(w, t.id, w.files.value));
  }

  /** When the upload is complete but the local copy cannot be removed, the
      error reaches ProcessMessage and the already delivered message is put
      in the retry queue. */
  lemma CompletedButRetried(sections: map<string, Section>, msgId: string, w: World)
    requires msgId in sections && sections[msgId] == Processing
    requires w.header.Ok? && w.resolve.Ok? && !w.accountExists
    requires w.newClient.None? && w.ticket.Ok? && w.ticket.value.valid
    requires w.files.Ok? && FirstError(PartErrors(w, w.files.value)).None?
    requires w.complete.None? && w.remove.Some?
    ensures CompleteUpload(w.ticket.value.id) in ProcessSpec(sections, msgId, w).calls
    ensures ProcessSpec(sections, msgId, w).sections[msgId] == Retry
  {
    ProcessDelivers(sections, msgId, w);
    CompletedUpload(sections, w.header.value, w.resolve.value, msgId, w);
  }

  // ---------------------------------------------------------------------
  // The processor

  /** Regrouping a trace, stated once so the methods need not rediscover it. */
  lemma Regroup(a: seq<Call>, b: seq<Call>, c: seq<Call>)
    ensures a + b + c == a + (b + c)
  {
  }

  /** The server state the processor changes: the queue sections, the
      scoreboard of messages being processed, and the calls made so far. */
  class Processor {
    var sections: map<string, Section>
    var scoreboard: set<string>
    var calls: seq<Call>

    constructor (sections: map<string, Section>)
      ensures this.sections == sections && scoreboard == {} && calls == []
    {
      this.sections := sections;
      scoreboard := {};
      calls := [];
    }

    method Record(c: Call)
      modifies this
      ensures calls == old(calls) + [c]
      ensures sections == old(sections) && scoreboard == old(scoreboard)
    {
      calls := calls + [c];
    }

    method MoveToRetryQueue(msgId: string)
      modifies this
      ensures sections == MoveToRetry(old(sections), msgId)
      ensures calls == old(calls) + [Call.MoveToRetryQueue(msgId)]
      ensures scoreboard == old(scoreboard)
    {
      if msgId in sections && sections[msgId] == Processing {
        sections := sections[msgId := Retry];
      }
      calls := calls + [Call.MoveToRetryQueue(msgId)];
    }

    /** deliverLocal(info, msgID). */
    method DeliverLocal(info: ResolveInfo, msgId: string, w: World) returns (err: Option<Error>)
      modifies this
      ensures var d := DeliverLocalSpec(old(sections), info, msgId, w);
        sections == d.sections && calls == old(calls) + d.calls && err == d.err
      ensures scoreboard == old(scoreboard)
    {
      Record(SendToInbox(info.hash, msgId));
      if w.sendToBox.Some? {
        MoveToRetryQueue(msgId);
      } else if msgId in sections && sections[msgId] == Processing {
        sections := sections - {msgId};
      }
      return None;
    }

    /** The file parts of the upload group, started one by one after the
        header and catalog parts; `failure` is what `g.Wait()` reports. */
    method StartBlocks(t: Ticket, files: seq<MessageFile>, w: World) returns (failure: Option<Error>)
      modifies this
      ensures calls == old(calls) + BlockCalls(w, t.id, files)
      ensures failure == FirstError(PartErrors(w, files))
      ensures sections == old(sections) && scoreboard == old(scoreboard)
    {
      assert files[..0] == [];
      assert PartErrors(w, []) == [w.headerUpload, CatalogError(w.catalog)];
      failure := FirstError([w.headerUpload, CatalogError(w.catalog)]);
      for i := 0 to |files|
        invariant calls == old(calls) + BlockCalls(w, t.id, files[..i])
        invariant failure == FirstError(PartErrors(w, files[..i]))
        invariant sections == old(sections) && scoreboard == old(scoreboard)
      {
        var f := files[i];
        var e := BlockError(w, f);
        ghost var step := if w.blockOpen(f).None? then [UploadBlock(t.id, f.id)] else [];
        PartsSnoc(w, t.id, files, i);
        FirstErrorSnoc(PartErrors(w, files[..i]), e);
        if w.blockOpen(f).None? {
          Record(UploadBlock(t.id, f.id));
        }
        assert calls == old(calls) + (BlockCalls(w, t.id, files[..i]) + step);
        if failure.None? {
          failure := e;
        }
      }
      assert files[..|files|] == files;
    }

    /** What follows `g.Wait()`: DeleteMessage on a failed part, otherwise
        CompleteUpload and, when that succeeds, RemoveMessage. */
    method Join(joined: Option<Error>, t: Ticket, msgId: string, w: World) returns (err: Option<Error>)
      modifies this
      ensures var j := JoinSpec(old(sections), joined, t, msgId, w);
        sections == j.sections && calls == old(calls) + j.calls && err == j.err
      ensures scoreboard == old(scoreboard)
    {
      if joined.Some? {
        Record(DeleteMessage(t.id));
        return joined;
      }
      Record(CompleteUpload(t.id));
      if w.complete.Some? {
        return w.complete;
      }
      Record(RemoveMessage(msgId));
      if w.remove.None? && msgId in sections && sections[msgId] == Processing {
        sections := sections - {msgId};
      }
      return w.remove;
    }

    /** The upload half of deliverRemote: start the header and catalog parts,
        list the files, start one part per file, then join. */
    method Upload(t: Ticket, msgId: string, w: World) returns (err: Option<Error>)
      modifies this
      ensures var u := UploadSpec(old(sections), t, msgId, w);
        sections == u.sections && calls == old(calls) + u.calls && err == u.err
      ensures scoreboard == old(scoreboard)
    {
      ghost var before := calls;
      Record(UploadHeader(t.id));
      if w.catalog.path.None? && w.catalog.read.None? {
        Record(UploadCatalog(t.id));
      }
      Record(GetFiles(msgId));
      ghost var started := StartCalls(t.id, msgId, w);
      assert calls == before + started;
      if w.files.Fail? {
        Record(DeleteMessage(t.id));
        Regroup(before, started, [DeleteMessage(t.id)]);
        return Some(w.files.err);
      }
      var files := w.files.value;
      var failure := StartBlocks(t, files, w);
      ghost var blocks := BlockCalls(w, t.id, files);
      ghost var j := JoinSpec(sections, failure, t, msgId, w);
      err := Join(failure, t, msgId, w);
      Regroup(before, started, blocks);
      Regroup(before, started + blocks, j.calls);
    }

    /** deliverRemote(header, info, msgID). */
    method DeliverRemote(header: Header, info: ResolveInfo, msgId: string, w: World) returns (err: Option<Error>)
      modifies this
      ensures var d := DeliverRemoteSpec(old(sections), header, info, msgId, w);
        sections == d.sections && calls == old(calls) + d.calls && err == d.err
      ensures scoreboard == old(scoreboard)
    {
      ghost var before := calls;
      Record(NewAnonymousClient(info.server));
      if w.newClient.Some? {
        return w.newClient;
      }
      Record(GetAnonymousTicket(header.from, info.hash));
      ghost var asked := [NewAnonymousClient(info.server), GetAnonymousTicket(header.from, info.hash)];
      assert calls == before + asked;
      if w.ticket.Fail? {
        return Some(w.ticket.err);
      }
      var t := w.ticket.value;
      ghost var rest := if t.valid then UploadSpec(sections, t, msgId, w) else ResubmitSpec(sections, t, msgId, w);
      if t.valid {
        err := Upload(t, msgId, w);
      } else {
        err := Resubmit(t, msgId, w);
      }
      Regroup(before, asked, rest.calls);
    }

    /** The proof-of-work branch of deliverRemote. */
    method Resubmit(t: Ticket, msgId: string, w: World) returns (err: Option<Error>)
      modifies this
      ensures var r := ResubmitSpec(old(sections), t, msgId, w);
        sections == r.sections && calls == old(calls) + r.calls && err == r.err
      ensures scoreboard == old(scoreboard)
    {
      ghost var before := calls;
      Record(Work(t.id));
      var proof := w.work(t);
      Record(GetTicketByProof(t.id, proof));
      ghost var worked := [Work(t.id), GetTicketByProof(t.id, proof)];
      assert calls == before + worked;
      var resubmitted := w.ticketByProof(t.id, proof);
      if resubmitted.Fail? || !resubmitted.value.valid {
        MoveToRetryQueue(msgId);
        Regroup(before, worked, [Call.MoveToRetryQueue(msgId)]);
        return if resubmitted.Fail? then Some(resubmitted.err) else None;
      }
      ghost var up := UploadSpec(sections, resubmitted.value, msgId, w);
      err := Upload(resubmitted.value, msgId, w);
      Regroup(before, worked, up.calls);
    }

    /** ProcessMessage(msgID). The deferred scoreboard removal runs on every
        return path. */
    method ProcessMessage(msgId: string, w: World)
      modifies this
      ensures var p := ProcessSpec(old(sections), msgId, w);
        sections == p.sections && calls == old(calls) + p.calls
      ensures scoreboard == old(scoreboard) - {msgId}
    {
      ghost var before := calls;
      scoreboard := scoreboard + {msgId};
      Record(AddToScoreboard(msgId));
      ProcessBody(msgId, w);
      ghost var body := ProcessBodySpec(old(sections), msgId, w);
      scoreboard := scoreboard - {msgId};
      Record(RemoveFromScoreboard(msgId));
      Regroup(before, [AddToScoreboard(msgId)], body.calls);
      Regroup(before, [AddToScoreboard(msgId)] + body.calls, [RemoveFromScoreboard(msgId)]);
    }

    method ProcessBody(msgId: string, w: World)
      modifies this
      ensures var p := ProcessBodySpec(old(sections), msgId, w);
        sections == p.sections && calls == old(calls) + p.calls
      ensures scoreboard == old(scoreboard)
    {
      ghost var before := calls;
      Record(GetMessageHeader(msgId));
      if w.header.Fail? {
        MoveToRetryQueue(msgId);
        assert calls == before + [GetMessageHeader(msgId), Call.MoveToRetryQueue(msgId)];
        return;
      }
      var header := w.header.value;
      Record(Resolve(header.to));
      if w.resolve.Fail? {
        MoveToRetryQueue(msgId);
        assert calls == before + [GetMessageHeader(msgId), Resolve(header.to), Call.MoveToRetryQueue(msgId)];
        return;
      }
      var info := w.resolve.value;
      Record(AccountExists(header.to));
      ghost var checked := calls;
      assert checked == before + [GetMessageHeader(msgId), Resolve(header.to), AccountExists(header.to)];
      ghost var d := DeliverSpec(old(sections), header, info, msgId, w);
      var err;
      if w.accountExists {
        err := DeliverLocal(info, msgId, w);
      } else {
        err := DeliverRemote(header, info, msgId, w);
      }
      ghost var lit := [GetMessageHeader(msgId), Resolve(header.to), AccountExists(header.to)];
      Regroup(before, lit, d.calls);
      ghost var body := lit + d.calls;
      if err.Some? {
        MoveToRetryQueue(msgId);
        Regroup(before, body, [Call.MoveToRetryQueue(msgId)]);
      }
    }
  }
}
