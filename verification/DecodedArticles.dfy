/** `decode` on an article object, in the program's own form. */
module DecodedArticles {
  import opened Options
  import opened Storage
  import opened Decoders
  import Connections

  class Article {
    var fetcher: Option<Server>
    var tried: set<nat>
    var tries: nat
    var header: Option<Header>
    var decoded: bool
    var onDisk: bool

    ghost function State(): Fetched
      reads this
    {
      Fetched(fetcher, tried, tries, header, decoded, onDisk)
    }

    method AllowNewFetcher(removeFetcher: bool)
      requires fetcher.Some?
      modifies this`fetcher, this`tried, this`tries
      ensures State() == old(State()).(fetcher := None, tries := 0, tried := if removeFetcher then old(tried) - {old(fetcher.value.id)} else old(tried))
    {
      if removeFetcher {
        tried := tried - {fetcher.value.id};
      }
      fetcher, tries := None, 0;
    }

    method SearchNewServer(servers: seq<Server>) returns (found: bool)
      requires fetcher.Some?
      modifies this`fetcher, this`tried, this`tries
      ensures (State(), found) == Decoders.SearchNewServer(old(State()), servers)
    {
      var last := fetcher.value;
      tried := tried + {last.id};
      var i := 0;
      while i < |servers| && !CanTry(servers[i], last, tried)
        invariant i <= |servers|
        invariant forall j :: 0 <= j < i ==> !CanTry(servers[j], last, tried)
      {
        i := i + 1;
      }
      found := i < |servers|;
      if found {
        AllowNewFetcher(false);
      }
    }

    /** The loop over the lines of the response. */
    static method ScanLines(lines: seq<HeaderLine>) returns (present: bool)
      ensures present == Scan(lines, false)
    {
      present := false;
      var i := 0;
      assert lines[i..] == lines;
      while i < |lines|
        invariant i <= |lines| && Scan(lines[i..], present) == Scan(lines, false)
      {
        assert lines[i..][1..] == lines[i + 1..];
        if lines[i].messageId {
          present := true;
        }
        if !lines[i].extension && lines[i].removed {
          return false;
        }
        i := i + 1;
      }
    }

    method RegisterArticle(success: bool, job: Job)
      modifies this`onDisk, this`fetcher, this`tried
      ensures State() == Decoders.RegisterArticle(old(State()), success, job)
    {
      if job.discards {
        fetcher, tried := None, {};
      } else if !job.precheck {
        if !success {
          onDisk := true;
        }
      }
    }

    /** The end of `decode`. */
    method Register(data: Option<Bytes>, success: bool, job: Job) returns (saved: Option<Bytes>)
      modifies this`decoded, this`onDisk, this`fetcher, this`tried
      ensures Outcome(State(), saved, Connections.Registered) == Decoders.Register(old(State()), data, success, job)
    {
      saved := None;
      if data.Some? && data.value != [] {
        saved := data;
        decoded := true;
      } else if !job.precheck {
        onDisk := true;
      }
      RegisterArticle(success, job);
    }

    method Decode(reply: Reply, job: Job, servers: seq<Server>) returns (saved: Option<Bytes>, end: Connections.Disposal)
      requires fetcher.Some?
      modifies this
      ensures Outcome(State(), saved, end) == Decoders.Decode(old(State()), reply, job, servers)
    {
      var attempt := Try(reply, job);
      var data, success := None, false;
      if !job.precheck && reply.content.Yenc? {
        header := Some(reply.content.header);
      }
      match attempt {
        case NoMemory =>
          AllowNewFetcher(true);
          return None, Connections.Pooled;
        case Good(d) => data, success := Some(d), true;
        case BadData(d) => data := Some(d);
        case BadUu =>
        case Failed =>
        case BadYenc =>
          if job.precheck && reply.status == 223 {
            success := true;
          } else {
            success := ScanLines(reply.lines);
          }
      }
      if !success {
        var found := SearchNewServer(servers);
        if found {
          return None, Connections.Pooled;
        }
      }
      saved := Register(data, success, job);
      end := Connections.Registered;
    }

    /** `Downloader.decode`. */
    method DecodeReply(reply: Option<Reply>, job: Job, servers: seq<Server>) returns (saved: Option<Bytes>, end: Connections.Disposal)
      requires fetcher.Some?
      modifies this
      ensures Outcome(State(), saved, end) == Decoders.DecodeReply(old(State()), reply, job, servers)
    {
      if reply.None? || (reply.value.bytesDecoded == 0 && !job.precheck) {
        saved := None;
        var found := SearchNewServer(servers);
        if found {
          end := Connections.Pooled;
        } else {
          RegisterArticle(false, job);
          end := Connections.Registered;
        }
      } else {
        saved, end := Decode(reply.value, job, servers);
      }
    }
  }
}
