/**
 * Session objects and the repository that files them (internal/domain/models/session.go, repository/session-repo.go).
 */
module SessionRepository {
  import opened Channels
  import opened Errors
  import opened Lifecycle
  import Media
  import Wire

  /** A session object. `sid` is its identity: two references are the same pointer exactly when their `sid`s agree. */
  class PeerSession {
    const sid: Sid
    const userId: Uid
    const initiator: bool
    var remote: Option<Credentials>
    var credsChan: Chan<()>
    var readyChan: Chan<()>
    var links: Links
    var handling: bool
    var closing: Once
    var mediaOpen: set<Media.Medium>
    var closed: Closed
    var callbacks: seq<Callback>
    var notified: nat
    var owner: Pid

    constructor (sid: Sid, userId: Uid, initiator: bool, owner: Pid)
      ensures this.sid == sid && View() == NewSession(userId, initiator, owner)
    {
      this.sid, this.userId, this.initiator, this.owner := sid, userId, initiator, owner;
      remote, credsChan, readyChan := None, Make(1), Make(1);
      links, handling, closing, mediaOpen := NO_LINKS, false, Fresh, {Media.Voice, Media.Webcam, Media.Screen};
      closed, callbacks, notified := Closed(false, false, false), [], 0;
    }

    /** The next statement of resetSession: each handle is closed if it was ever opened. */
    method CloseForReset(stage: ResetStage)
      modifies this
      ensures View() == ResetClosed(old(View()), stage)
    {
      match stage {
        case ResetStream =>
          if links.eventStream {
            closed := closed.(stream := true);
          }
        case ResetConn =>
          if links.conn {
            closed := closed.(conn := true);
          }
        case ResetAgent => closed := closed.(agent := true);
        case ResetDelete =>
      }
    }

    /** The next statement inside Closing.Do; a media channel it closes has to be open. */
    method CloseForGood(stage: TearStage, leave: bool, handler: bool)
      requires stage.TearMedia? ==> stage.m in mediaOpen
      modifies this
      ensures View() == Torn(old(View()), stage, leave, handler)
    {
      match stage {
        case TearStream => CloseForReset(ResetStream);
        case TearConn => CloseForReset(ResetConn);
        case TearAgent => CloseForReset(ResetAgent);
        case TearMedia(m) => mediaOpen := mediaOpen - {m};
        case TearDelete =>
        case TearNotify =>
          if leave {
            notified := notified + 1;
          } else if handler {
            callbacks := callbacks + [Disconnected];
          }
          closing := Over(leave);
      }
    }

    /** The next statement of establishConnection. */
    method Establish(stage: EstStage, key: Wire.bytes, handler: bool)
      requires stage.AwaitCreds? ==> credsChan.CanRecv()
      modifies this
      ensures View() == Established(old(View()), stage, key, handler)
    {
      match stage {
        case AwaitCreds => credsChan := credsChan.Recv();
        case Dialing => links := links.(conn := true);
        case KeyExchanging => links := links.(key := key);
        case OpeningEvents =>
        case SettingStream => links := links.(eventStream := true);
        case SettingDecoder => links := links.(decoder := true);
        case SettingEncoder => links := links.(encoder := true);
        case Announcing =>
          if handler {
            callbacks := callbacks + [Connected];
          }
        case Launching => handling := true;
        case ClosingReady => readyChan := readyChan.(closed := true);
      }
    }

    /** Other goroutines have written the fields. */
    method Overwrite(x: Session)
      requires x.userId == userId && x.initiator == initiator
      modifies this
      ensures View() == x
    {
      remote, credsChan, readyChan, links, handling := x.remote, x.credsChan, x.readyChan, x.links, x.handling;
      closing, mediaOpen, closed, callbacks := x.closing, x.mediaOpen, x.closed, x.callbacks;
      notified, owner := x.notified, x.owner;
    }

    function View(): Session
      reads this
    {
      Session(userId, initiator, remote, credsChan, readyChan, links, handling, closing, mediaOpen, closed, callbacks,
              notified, owner)
    }
  }

  /** The sync.Map. Each operation is refused first when its context is done. */
  class SessionRepo {
    var entries: map<Uid, PeerSession>

    constructor ()
      ensures entries == map[]
    {
      entries := map[];
    }

    method Add(done: bool, id: Uid, session: PeerSession) returns (err: Option<Error>)
      modifies this
      ensures done ==> err == Some(App("sessionRepository.Add", Base(RequestTimeout)))
      ensures !done && id in old(entries) ==> err == Some(App("sessionRepository.Add", Base(AlreadyExists)))
      ensures err.None? <==> !done && id !in old(entries)
      ensures entries == if err.None? then old(entries)[id := session] else old(entries)
    {
      if done {
        return Some(App("sessionRepository.Add", Base(RequestTimeout)));
      }
      if id in entries {
        return Some(App("sessionRepository.Add", Base(AlreadyExists)));
      }
      entries := entries[id := session];
      return None;
    }

    /** Removes this very object, never another one filed under the same id. */
    method Delete(done: bool, id: Uid, session: PeerSession) returns (err: Option<Error>)
      modifies this
      ensures done ==> err == Some(App("sessionRepository.Delete", Base(RequestTimeout)))
      ensures !done && err.Some? ==> err == Some(App("sessionRepository.Delete", Base(NotFound)))
      ensures err.None? <==> !done && id in old(entries) && old(entries)[id] == session
      ensures entries == if err.None? then old(entries) - {id} else old(entries)
    {
      if done {
        return Some(App("sessionRepository.Delete", Base(RequestTimeout)));
      }
      if id !in entries || entries[id] != session {
        return Some(App("sessionRepository.Delete", Base(NotFound)));
      }
      entries := entries - {id};
      return None;
    }

    method Get(done: bool, id: Uid) returns (session: PeerSession?, err: Option<Error>)
      ensures done ==> err == Some(App("sessionRepository.Get", Base(RequestTimeout)))
      ensures !done && id !in entries ==> err == Some(App("sessionRepository.Get", Base(NotFound)))
      ensures err.None? <==> !done && id in entries
      ensures session == if err.None? then entries[id] else null
    {
      if done {
        return null, Some(App("sessionRepository.Get", Base(RequestTimeout)));
      }
      if id !in entries {
        return null, Some(App("sessionRepository.Get", Base(NotFound)));
      }
      return entries[id], None;
    }

    /** Every entry exactly once, in some order. */
    method Fetch(done: bool) returns (sessions: seq<PeerSession>, ghost ids: seq<Uid>, err: Option<Error>)
      ensures done ==> err == Some(App("sessionRepository.Fetch", Base(RequestTimeout))) && sessions == []
      ensures !done ==> err.None? && |sessions| == |ids| == |entries|
      ensures !done ==> forall u :: u in entries <==> u in ids
      ensures !done ==> forall k :: 0 <= k < |ids| ==> ids[k] in entries && sessions[k] == entries[ids[k]]
      ensures forall j, k :: 0 <= j < k < |ids| ==> ids[j] != ids[k]
    {
      sessions, ids := [], [];
      if done {
        return [], [], Some(App("sessionRepository.Fetch", Base(RequestTimeout)));
      }
      var rest := entries.Keys;
      while rest != {}
        invariant rest <= entries.Keys && |sessions| == |ids| && |ids| + |rest| == |entries|
        invariant forall u :: u in entries <==> u in ids || u in rest
        invariant forall k :: 0 <= k < |ids| ==> ids[k] in entries && ids[k] !in rest && sessions[k] == entries[ids[k]]
        invariant forall j, k :: 0 <= j < k < |ids| ==> ids[j] != ids[k]
        decreases rest
      {
        var u :| u in rest;
        rest := rest - {u};
        sessions, ids := sessions + [entries[u]], ids + [u];
      }
      return sessions, ids, None;
    }

    method Clear(done: bool) returns (err: Option<Error>)
      modifies this
      ensures done ==> err == Some(App("sessionRepository.Clear", Base(RequestTimeout))) && entries == old(entries)
      ensures !done ==> err.None? && entries == map[]
    {
      if done {
        return Some(App("sessionRepository.Clear", Base(RequestTimeout)));
      }
      while entries.Keys != {}
        decreases entries.Keys
      {
        var u :| u in entries;
        entries := entries - {u};
      }
      return None;
    }
  }
}
