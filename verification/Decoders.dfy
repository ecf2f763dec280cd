/** The outcomes of `decode`, as functions on values: how an article's stay on a server ends, and what is left of it. */
module Decoders {
  import opened Options
  import opened Storage
  import Connections

  datatype Server = Server(id: nat, active: bool, priority: int)

  /** What `decode` uses of an article. `fetcher` is the server that has it, `tried` its try list. */
  datatype Fetched = Fetched(
    fetcher: Option<Server>, tried: set<nat>, tries: nat, header: Option<Header>, decoded: bool, onDisk: bool)

  /** A line of a response: whether it starts with "message-id:", whether it starts with "x-", and whether it has a
      clue that the article was removed. */
  datatype HeaderLine = HeaderLine(messageId: bool, extension: bool, removed: bool)

  /** What the yEnc and UU decoder makes of a body, or what it raises. */
  datatype Content =
    | OutOfMemory
    | Uu(bad: bool, data: Bytes)
    | Yenc(crcKnown: bool, header: Header, data: Bytes)
    | Malformed
    | Unknown

  datatype Reply = Reply(status: int, bytesDecoded: nat, lines: seq<HeaderLine>, content: Content)

  /** What the job says: in pre-check; finished, or the file deleted. */
  datatype Job = Job(precheck: bool, discards: bool)

  /** The article afterwards, the data handed to the cache, and how its stay ended. */
  datatype Outcome = Outcome(a: Fetched, saved: Option<Bytes>, end: Connections.Disposal)

  // ------------------------------------------------------------------------------------------ another server, or not

  predicate CanTry(server: Server, fetcher: Server, tried: set<nat>) {
    server.active && server.id !in tried && server.priority >= fetcher.priority
  }

  predicate AnotherServer(a: Fetched, servers: seq<Server>)
    requires a.fetcher.Some?
  {
    exists i :: 0 <= i < |servers| && CanTry(servers[i], a.fetcher.value, a.tried + {a.fetcher.value.id})
  }

  /** `Article.search_new_server`. */
  function SearchNewServer(a: Fetched, servers: seq<Server>): (Fetched, bool)
    requires a.fetcher.Some?
  {
    var a1 := a.(tried := a.tried + {a.fetcher.value.id});
    if AnotherServer(a, servers) then (a1.(fetcher := None, tries := 0), true) else (a1, false)
  }

  /** The scan of the response's lines, from what is known so far. */
  function Scan(lines: seq<HeaderLine>, present: bool): bool
    decreases |lines|
  {
    if lines == [] then present
    else if !lines[0].extension && lines[0].removed then false
    else Scan(lines[1..], present || lines[0].messageId)
  }

  // ----------------------------------------------------------------------------------------------------- decoding

  /** What the `try` block of `decode` comes to. */
  datatype Attempt = Good(data: Bytes) | NoMemory | BadData(data: Bytes) | BadUu | BadYenc | Failed

  function Try(reply: Reply, job: Job): Attempt {
    if job.precheck then BadYenc
    else
      match reply.content
      case OutOfMemory => NoMemory
      case Uu(bad, data) => if reply.bytesDecoded == 0 then BadUu else if bad then BadData(data) else Good(data)
      case Yenc(crcKnown, _, data) => if crcKnown then Good(data) else BadData(data)
      case Malformed => BadYenc
      case Unknown => Failed
  }

  /** The header fields are filled in even when the CRC is then found missing. */
  function WithFields(a: Fetched, reply: Reply, job: Job): Fetched {
    if !job.precheck && reply.content.Yenc? then a.(header := Some(reply.content.header)) else a
  }

  /** The article counts as present although there is no data. */
  predicate Present(reply: Reply, job: Job) {
    (job.precheck && reply.status == 223) || Scan(reply.lines, false)
  }

  /** Decoding succeeded; otherwise another server is searched for, but after an out of memory. */
  predicate Succeeds(reply: Reply, job: Job) {
    var attempt := Try(reply, job);
    attempt.Good? || (attempt.BadYenc? && Present(reply, job))
  }

  /** `register_article`, of the article itself. */
  function RegisterArticle(a: Fetched, success: bool, job: Job): Fetched {
    if job.discards then a.(fetcher := None, tried := {})
    else if !job.precheck && !success then a.(onDisk := true)
    else a
  }

  /** The end of `decode`. */
  function Register(a: Fetched, data: Option<Bytes>, success: bool, job: Job): Outcome {
    var some := data.Some? && data.value != [];
    var a1 := if some then a.(decoded := true) else if !job.precheck then a.(onDisk := true) else a;
    Outcome(RegisterArticle(a1, success, job), if some then data else None, Connections.Registered)
  }

  /** `decode`. */
  function Decode(a: Fetched, reply: Reply, job: Job, servers: seq<Server>): Outcome
    requires a.fetcher.Some?
  {
    var attempt, a1 := Try(reply, job), WithFields(a, reply, job);
    if attempt.NoMemory? then
      Outcome(a1.(fetcher := None, tried := a1.tried - {a1.fetcher.value.id}, tries := 0), None, Connections.Pooled)
    else if Succeeds(reply, job) then Register(a1, if attempt.Good? then Some(attempt.data) else None, true, job)
    else
      var (a2, found) := SearchNewServer(a1, servers);
      if found then Outcome(a2, None, Connections.Pooled)
      else Register(a2, if attempt.BadData? then Some(attempt.data) else None, false, job)
  }

  /** Nothing arrived that could be decoded. */
  predicate Missing(reply: Option<Reply>, job: Job) {
    reply.None? || (reply.value.bytesDecoded == 0 && !job.precheck)
  }

  /** `Downloader.decode`: without a response, or without anything decoded, there is nothing to decode. */
  function DecodeReply(a: Fetched, reply: Option<Reply>, job: Job, servers: seq<Server>): Outcome
    requires a.fetcher.Some?
  {
    if Missing(reply, job) then
      var (a1, found) := SearchNewServer(a, servers);
      if found then Outcome(a1, None, Connections.Pooled) else Outcome(RegisterArticle(a1, false, job), None, Connections.Registered)
    else Decode(a, reply.value, job, servers)
  }

  // ------------------------------------------------------------------------------------------------------- lemmas

  /** A response counts as present exactly when it names the message and no line of its own says it was removed. */
  lemma {:induction false} ScanExactly(lines: seq<HeaderLine>, present: bool)
    ensures Scan(lines, present) <==>
      && (present || exists i :: 0 <= i < |lines| && lines[i].messageId)
      && (forall i :: 0 <= i < |lines| ==> lines[i].extension || !lines[i].removed)
    decreases |lines|
  {
    if lines != [] {
      var rest := lines[1..];
      ScanExactly(rest, present || lines[0].messageId);
      assert forall i :: 1 <= i < |lines| ==> lines[i] == rest[i - 1];
      assert forall i :: 0 <= i < |rest| ==> rest[i] == lines[i + 1];
    }
  }

  /** An article goes back to the pool exactly when memory ran out or it failed and another server can be tried; else it
      is registered. Back in the pool no server has it, and the server that failed is not asked again. */
  lemma BackToPoolExactly(a: Fetched, reply: Reply, job: Job, servers: seq<Server>)
    requires a.fetcher.Some?
    ensures var o, attempt := Decode(a, reply, job, servers), Try(reply, job);
      && (o.end.Pooled? <==> attempt.NoMemory? || (!Succeeds(reply, job) && AnotherServer(a, servers)))
      && (o.end.Pooled? || o.end.Registered?)
      && (o.end.Pooled? ==> o.a.fetcher == None && o.saved == None && o.a.decoded == a.decoded && o.a.onDisk == a.onDisk)
      && (o.end.Pooled? && !attempt.NoMemory? ==> a.fetcher.value.id in o.a.tried)
  {
    var a1 := WithFields(a, reply, job);
    assert a1.fetcher == a.fetcher && a1.tried == a.tried;
    assert AnotherServer(a1, servers) == AnotherServer(a, servers);
  }

  /** An article for which nothing was decoded, or which was too old for the server, goes on to another server, or is
      registered and marked to be skipped. */
  lemma MissingGoesOn(a: Fetched, reply: Option<Reply>, job: Job, servers: seq<Server>)
    requires a.fetcher.Some? && !job.precheck && (reply.None? || reply.value.bytesDecoded == 0)
    ensures var o := DecodeReply(a, reply, job, servers);
      && o.saved == None && o.a.decoded == a.decoded
      && (if AnotherServer(a, servers) then o.end.Pooled? && o.a.fetcher == None && o.a.onDisk == a.onDisk
          else o.end.Registered? && (o.a.onDisk || job.discards))
  {
  }

  /** Decoding settles an article: nothing is missing and memory suffices, and it is in good order or counts as present;
      or no other server can be tried. */
  predicate Settles(a: Fetched, reply: Option<Reply>, job: Job, servers: seq<Server>)
    requires a.fetcher.Some?
  {
    if Missing(reply, job) then !AnotherServer(a, servers)
    else !Try(reply.value, job).NoMemory? && (Succeeds(reply.value, job) || !AnotherServer(a, servers))
  }

  /** That is what a call on a connection takes as an input: when its `settled` articles are those that decoding settles,
      the end that it logs for an article is the one that decoding comes to. */
  lemma SettledIsDecoded(a: Fetched, reply: Option<Reply>, job: Job, servers: seq<Server>,
                         article: Connections.Article, jobs: Connections.Jobs)
    requires a.fetcher.Some? && (article in jobs.settled <==> Settles(a, reply, job, servers))
    ensures DecodeReply(a, reply, job, servers).end == Connections.DecodeEnd(article, jobs)
  {
    if reply.Some? {
      BackToPoolExactly(a, reply.value, job, servers);
    }
  }

  /** The servers that an article can still be given to. */
  function Untried(servers: seq<Server>, tried: set<nat>): nat {
    if servers == [] then 0 else (if servers[0].id in tried then 0 else 1) + Untried(servers[1..], tried)
  }

  lemma {:induction false} UntriedShrinks(servers: seq<Server>, tried: set<nat>, id: nat)
    ensures Untried(servers, tried + {id}) <= Untried(servers, tried)
    ensures id !in tried && (exists i :: 0 <= i < |servers| && servers[i].id == id) ==> Untried(servers, tried + {id}) < Untried(servers, tried)
  {
    if servers != [] {
      UntriedShrinks(servers[1..], tried, id);
      assert forall i :: 1 <= i < |servers| ==> servers[i] == servers[1..][i - 1];
    }
  }

  /** Decoding ran out of memory, which is not the server's fault. */
  predicate RanOut(reply: Option<Reply>, job: Job) {
    !Missing(reply, job) && Try(reply.value, job).NoMemory?
  }

  /** Every failure that sends an article on to another server leaves it fewer servers to be given to, so it is not
      passed around for ever. */
  lemma FailuresRunOut(a: Fetched, reply: Option<Reply>, job: Job, servers: seq<Server>)
    requires a.fetcher.Some? && a.fetcher.value.id !in a.tried
    requires exists i :: 0 <= i < |servers| && servers[i].id == a.fetcher.value.id
    ensures var o := DecodeReply(a, reply, job, servers);
      o.end.Pooled? && !RanOut(reply, job) ==> Untried(servers, o.a.tried) < Untried(servers, a.tried)
  {
    UntriedShrinks(servers, a.tried, a.fetcher.value.id);
    assert reply.Some? ==> WithFields(a, reply.value, job).tried == a.tried;
  }

  /** What a registered article of a download leaves for the assembler: its data in the cache, to be written; or nothing,
      and a mark to skip it. */
  predicate LeftToWrite(o: Outcome) {
    o.saved.Some? && o.a.decoded && !o.a.onDisk
  }

  predicate LeftToSkip(o: Outcome) {
    o.saved == None && o.a.onDisk
  }

  /** The third case: the data is saved, so that par2 may still repair it, and the article is marked to be skipped. */
  predicate SavedYetSkipped(o: Outcome) {
    o.saved.Some? && o.a.decoded && o.a.onDisk
  }

  /** It is exactly bad data that no other server can better, of a job that is not finished: unless the cache writes it
      directly, what was saved stays there, since the assembler passes over what is marked as on disk. */
  lemma BadDataIsSkippedExactly(a: Fetched, reply: Reply, job: Job, servers: seq<Server>)
    requires a.fetcher.Some? && !a.decoded && !a.onDisk && !job.precheck
    ensures var o, attempt := Decode(a, reply, job, servers), Try(reply, job);
      && (o.end.Registered? ==> LeftToWrite(o) || LeftToSkip(o) || SavedYetSkipped(o))
      && (SavedYetSkipped(o) <==>
          attempt.BadData? && attempt.data != [] && !AnotherServer(a, servers) && !job.discards)
      && (attempt.Good? && attempt.data != [] ==> LeftToWrite(o) && o.saved == Some(attempt.data))
  {
    var a1 := WithFields(a, reply, job);
    assert a1.fetcher == a.fetcher && a1.tried == a.tried;
    assert AnotherServer(a1, servers) == AnotherServer(a, servers);
  }

  /** Pre-check registers an article without data and marks nothing. */
  lemma PrecheckLeavesNothing(a: Fetched, reply: Reply, job: Job, servers: seq<Server>)
    requires a.fetcher.Some? && job.precheck
    ensures var o := Decode(a, reply, job, servers);
      && o.saved == None && o.a.decoded == a.decoded && o.a.onDisk == a.onDisk
      && (o.end.Registered? <==> reply.status == 223 || Scan(reply.lines, false) || !AnotherServer(a, servers))
  {
    BackToPoolExactly(a, reply, job, servers);
  }
}
