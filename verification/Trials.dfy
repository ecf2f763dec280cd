/**
 What `decode` makes of an article, said in terms of the reply, of the servers' fields and of the try list alone: which
 replies deliver an article, which servers it is then still given to, and when it is given up.
 */
module Trials {
  import opened Options
  import opened Storage
  import opened Decoders
  import Connections

  // -------------------------------------------------------------------------------------------- what a reply delivers

  /** The reply to a download holds the whole article, in good order. */
  predicate Delivers(reply: Reply, data: Bytes) {
    && reply.bytesDecoded > 0
    && (reply.content == Uu(false, data) || (reply.content.Yenc? && reply.content.crcKnown && reply.content.data == data))
  }

  /** Some line names the message, and none, but for extension headers, has a clue that it was removed. */
  predicate NamesMessage(reply: Reply) {
    && (exists i :: 0 <= i < |reply.lines| && reply.lines[i].messageId)
    && forall i :: 0 <= i < |reply.lines| ==> reply.lines[i].extension || !reply.lines[i].removed
  }

  /** The article is taken for good: it was delivered; or it is badly formed, or in pre-check, and its lines name it, or
      in pre-check the status says that it is there. */
  predicate Accepted(reply: Option<Reply>, job: Job) {
    reply.Some? &&
    if job.precheck then reply.value.status == 223 || NamesMessage(reply.value)
    else
      reply.value.bytesDecoded > 0
      && ((reply.value.content.Uu? && !reply.value.content.bad)
          || (reply.value.content.Yenc? && reply.value.content.crcKnown)
          || (reply.value.content.Malformed? && NamesMessage(reply.value)))
  }

  predicate MemoryRanOut(reply: Option<Reply>, job: Job) {
    reply.Some? && !job.precheck && reply.value.bytesDecoded > 0 && reply.value.content.OutOfMemory?
  }

  /** A download that is delivered is saved, to the byte, and registered, and left to be written. */
  lemma DeliveredIsSaved(a: Fetched, reply: Reply, job: Job, servers: seq<Server>, data: Bytes)
    requires a.fetcher.Some? && !job.precheck && Delivers(reply, data) && data != []
    ensures var o := DecodeReply(a, Some(reply), job, servers);
      && o.end.Registered? && o.saved == Some(data) && o.a.decoded && o.a.onDisk == a.onDisk
      && (reply.content.Yenc? ==> o.a.header == Some(reply.content.header))
      && (!job.discards ==> o.a.fetcher == a.fetcher && o.a.tried == a.tried)
  {
  }

  /** A delivered article is saved with its data exactly if there is any, and bad data exactly once it is given up. */
  lemma SavedExactly(a: Fetched, reply: Option<Reply>, job: Job, servers: seq<Server>, data: Bytes)
    requires a.fetcher.Some?
    ensures DecodeReply(a, reply, job, servers).saved == Some(data) <==>
      && reply.Some? && !job.precheck && data != [] && reply.value.bytesDecoded > 0
      && ((reply.value.content.Uu? && reply.value.content.data == data)
          || (reply.value.content.Yenc? && reply.value.content.data == data))
      && (Accepted(reply, job) || forall i :: 0 <= i < |servers| ==> !Left(servers[i], a))
  {
    TryLeft(a, servers);
    if reply.Some? {
      var a1 := WithFields(a, reply.value, job);
      assert a1.fetcher == a.fetcher && a1.tried == a.tried;
      assert AnotherServer(a1, servers) == AnotherServer(a, servers);
    }
  }

  // ------------------------------------------------------------------------------------------- which servers are left

  /** A server that the article can still be given to after it failed on the one that has it. */
  predicate Left(server: Server, a: Fetched)
    requires a.fetcher.Some?
  {
    && server.active && server.priority >= a.fetcher.value.priority
    && server.id !in a.tried && server.id != a.fetcher.value.id
  }

  lemma TryLeft(a: Fetched, servers: seq<Server>)
    requires a.fetcher.Some?
    ensures AnotherServer(a, servers) <==> exists i :: 0 <= i < |servers| && Left(servers[i], a)
  {
    forall i | 0 <= i < |servers|
      ensures CanTry(servers[i], a.fetcher.value, a.tried + {a.fetcher.value.id}) <==> Left(servers[i], a)
    {
    }
  }

  /** An article that is not accepted, for any reason but want of memory, goes back to the pool exactly when some active
      server, of no higher priority than the one that failed, has not had it, that one included; otherwise it is
      registered. Back in the pool no server has it, and the one that failed is on its try list. For want of memory it
      goes back too, and may be given to the same server again. */
  lemma GivenUpExactly(a: Fetched, reply: Option<Reply>, job: Job, servers: seq<Server>)
    requires a.fetcher.Some? && !Accepted(reply, job)
    ensures var o, f := DecodeReply(a, reply, job, servers), a.fetcher.value;
      && (o.end.Pooled? || o.end.Registered?)
      && (o.end.Pooled? <==>
            MemoryRanOut(reply, job) || exists i :: 0 <= i < |servers| && servers[i].active && servers[i].priority >= f.priority
                                                    && servers[i].id !in a.tried && servers[i].id != f.id)
      && (o.end.Pooled? ==> o.a.fetcher == None && o.a.tries == 0 && o.saved == None && o.a.onDisk == a.onDisk)
      && (o.end.Pooled? ==> o.a.tried == if MemoryRanOut(reply, job) then a.tried - {f.id} else a.tried + {f.id})
      && (o.end.Registered? && !job.discards ==> o.a.tried == a.tried + {f.id} && o.a.onDisk == (a.onDisk || !job.precheck))
  {
    NotAccepted(reply, job);
    TryLeft(a, servers);
    if reply.Some? {
      var a1 := WithFields(a, reply.value, job);
      assert a1.fetcher == a.fetcher && a1.tried == a.tried;
      assert AnotherServer(a1, servers) == AnotherServer(a, servers);
    }
    assert (exists i :: 0 <= i < |servers| && Left(servers[i], a))
      <==> exists i :: 0 <= i < |servers| && servers[i].active && servers[i].priority >= a.fetcher.value.priority
                       && servers[i].id !in a.tried && servers[i].id != a.fetcher.value.id;
  }

  lemma NotAccepted(reply: Option<Reply>, job: Job)
    ensures Accepted(reply, job) <==> !Missing(reply, job) && Succeeds(reply.value, job)
    ensures MemoryRanOut(reply, job) <==> RanOut(reply, job)
  {
    if reply.Some? {
      ScanExactly(reply.value.lines, false);
    }
  }

  /** What is accepted is registered, at any server; and unless the job is finished nothing changes about who had it. */
  lemma AcceptedIsRegistered(a: Fetched, reply: Option<Reply>, job: Job, servers: seq<Server>)
    requires a.fetcher.Some? && Accepted(reply, job)
    ensures var o := DecodeReply(a, reply, job, servers);
      && o.end.Registered?
      && (job.discards ==> o.a.fetcher == None && o.a.tried == {})
      && (!job.discards ==> o.a.fetcher == a.fetcher && o.a.tried == a.tried)
      && o.a.onDisk == (a.onDisk || (!job.precheck && o.saved == None))
      && o.a.decoded == (a.decoded || o.saved.Some?)
  {
    NotAccepted(reply, job);
  }

  // ------------------------------------------------------------------------------------------------------- every trial

  /** One server after another had the article and failed: each gave it back to the pool, from where the next took it. */
  ghost predicate Failed(a: Fetched, trials: seq<(Option<Reply>, Server)>, job: Job, servers: seq<Server>)
    decreases |trials|
  {
    trials == [] ||
    (a.fetcher.Some? && !Accepted(trials[0].0, job) && !MemoryRanOut(trials[0].0, job)
     && DecodeReply(a, trials[0].0, job, servers).end.Pooled?
     && Failed(DecodeReply(a, trials[0].0, job, servers).a.(fetcher := Some(trials[0].1)), trials[1..], job, servers))
  }

  /** The article when the last of them has it. */
  ghost function LastHeld(a: Fetched, trials: seq<(Option<Reply>, Server)>, job: Job, servers: seq<Server>): Fetched
    requires Failed(a, trials, job, servers)
    decreases |trials|
  {
    if trials == [] then a
    else LastHeld(DecodeReply(a, trials[0].0, job, servers).a.(fetcher := Some(trials[0].1)), trials[1..], job, servers)
  }

  function Ids(trials: seq<(Option<Reply>, Server)>): set<nat> {
    set i | 0 <= i < |trials| :: trials[i].1.id
  }

  lemma {:induction false} TriedAreHolders(a: Fetched, trials: seq<(Option<Reply>, Server)>, job: Job, servers: seq<Server>)
    requires Failed(a, trials, job, servers) && a.fetcher.Some?
    ensures var b := LastHeld(a, trials, job, servers);
      b.fetcher.Some? && b.tried + {b.fetcher.value.id} == a.tried + {a.fetcher.value.id} + Ids(trials)
    decreases |trials|
  {
    if trials == [] {
      assert Ids(trials) == {};
    } else {
      GivenUpExactly(a, trials[0].0, job, servers);
      var next := DecodeReply(a, trials[0].0, job, servers).a.(fetcher := Some(trials[0].1));
      TriedAreHolders(next, trials[1..], job, servers);
      assert Ids(trials) == {trials[0].1.id} + Ids(trials[1..]) by {
        assert forall i :: 1 <= i < |trials| ==> trials[i] == trials[1..][i - 1];
        assert forall i :: 0 <= i < |trials[1..]| ==> trials[1..][i] == trials[i + 1];
        assert trials[0].1.id in Ids(trials);
        forall id | id in Ids(trials[1..]) ensures id in Ids(trials) {
          var i :| 0 <= i < |trials[1..]| && trials[1..][i].1.id == id;
          assert trials[i + 1].1.id == id;
        }
      }
    }
  }

  /** Among servers of one priority an article that fails everywhere is given up only when every active one had it. */
  lemma GivenUpAfterAllHadIt(a: Fetched, trials: seq<(Option<Reply>, Server)>, last: Option<Reply>, job: Job,
                             servers: seq<Server>, s: Server, priority: int)
    requires a.fetcher.Some? && a.tried == {} && Failed(a, trials, job, servers) && s in servers && s.active
    requires s.priority == priority == LastHeld(a, trials, job, servers).fetcher.GetOr(s).priority
    requires !Accepted(last, job) && LastHeld(a, trials, job, servers).fetcher.Some?
    requires DecodeReply(LastHeld(a, trials, job, servers), last, job, servers).end.Registered?
    ensures s.id == a.fetcher.value.id || exists i :: 0 <= i < |trials| && trials[i].1.id == s.id
  {
    var b := LastHeld(a, trials, job, servers);
    TriedAreHolders(a, trials, job, servers);
    GivenUpExactly(b, last, job, servers);
    var i :| 0 <= i < |servers| && servers[i] == s;
    assert s.id in b.tried || s.id == b.fetcher.value.id;
    assert s.id in a.tried + {a.fetcher.value.id} + Ids(trials);
  }
}
