/** The client: sessions on disk, and the steps that load one, use it and store it on success. */
module Clients {
  import opened Wrappers
  import opened Arithmetic
  import opened Keys
  import opened Ratchets
  import opened Sessions

  /** A stored session: the peer's name and identity key, an answer not sent yet, the session itself. */
  datatype File = File(name: Bytes, peerKey: KeyId, pendingAck: Option<Message>, session: SavedSession)

  datatype Loaded = Loaded(name: Bytes, pendingAck: Option<Message>, state: SessionState)

  datatype Done<T> = Done(client: ClientState, result: Result<T>)

  /** The identifier under which a message looks for its session. */
  function IdOf(msg: Message): Uuid {
    msg.uuid
  }

  /**
   A client's own identity key and name, the session identifiers by peer name and the files.  A
   file is named by a hash of the client's name and the entropy of the session identifier, so
   two identifiers with the same entropy name the same file.
   */
  datatype ClientState = ClientState(key: KeyId, me: Bytes, sessions: map<Bytes, Uuid>, files: map<Bytes, File>)
  {
    /** Every file can be loaded and has the name that its session is stored under. */
    ghost predicate Valid() {
      forall e :: e in files ==> Loadable(files[e].session) && Entropy(files[e].session.local) == e
    }

    /** The identifier for a peer; `made` is drawn for a name that is not known yet. */
    function ByName(name: Bytes, made: Uuid): (ClientState, Uuid) {
      if name in sessions then (this, sessions[name]) else (this.(sessions := sessions[name := made]), made)
    }

    function Get(id: Uuid): Result<Loaded> {
      if Entropy(id) !in files then Err(NoSuchSession)
      else
        var f := files[Entropy(id)];
        Ok(Loaded(f.name, f.pendingAck, RestoreSession(f.session, f.peerKey, key)))
    }

    function Put(sess: Loaded): ClientState {
      var file := File(sess.name, sess.state.peerKey, sess.pendingAck, SaveSession(sess.state));
      this.(files := files[Entropy(sess.state.local) := file])
    }

    function Delete(sess: Loaded): ClientState {
      this.(sessions := sessions - {sess.name}, files := files - {Entropy(sess.state.local)})
    }

    function New(name: Bytes, peer: KeyId, id: Uuid): Loaded {
      Loaded(name, None, SessionState(id, [], me, Some(key), peer, None, None, None))
    }

    /** Sends to a known session; the new state is stored only if posting the message succeeded. */
    function Send(name: Bytes, made: Uuid, text: Bytes, draw: KeyId, now: nat, posted: bool): Done<Message> {
      var (named, id) := ByName(name, made);
      match named.Get(id)
      case Err(e) => Done(named, Err(e))
      case Ok(sess) =>
        var t := sess.state.Send(text, draw, now);
        if t.result.Err? || !posted then Done(named, t.result)
        else Done(named.Put(sess.(state := t.state)), t.result)
    }

    /** Handles a message; the new state is stored only if the session accepted the message. */
    function Handle(msg: Message, made: Uuid, peer: KeyId, draws: (KeyId, KeyId), noise: Bytes): Done<Option<Received>>
      requires Valid()
    {
      if msg.Offer? then
        var (named, id) := ByName(msg.nick, made);
        named.Accept(New(msg.nick, peer, id), msg, draws, noise)
      else
        match Get(IdOf(msg))
        case Err(e) => Done(this, Ok(None))
        case Ok(sess) => Accept(sess, msg, draws, noise)
    }

    function Accept(sess: Loaded, msg: Message, draws: (KeyId, KeyId), noise: Bytes): Done<Option<Received>>
      requires sess.state.ratchet.Some? ==> sess.state.ratchet.value.recv.Some? ==> sess.state.ratchet.value.peer.Some?
    {
      var t := sess.state.Receive(msg, draws, noise);
      if t.result.Err? then Done(this, Err(t.result.error))
      else
        var answer := if t.result.value.Established? then t.result.value.answer else sess.pendingAck;
        var answered := sess.(state := t.state, pendingAck := answer);
        var stored := Put(answered);
        Done(if t.result.value.Closed? then stored.Delete(answered) else stored, Ok(Some(t.result.value)))
    }

    /** Opens a session: stores it with its prekey and returns the offer. */
    function Offer(name: Bytes, peer: KeyId, made: Uuid, spk: KeyId): Done<Message> {
      var (named, id) := ByName(name, made);
      var t := New(name, peer, id).state.CreateOffer(spk);
      if t.result.Err? then Done(named, t.result)
      else Done(named.Put(New(name, peer, id).(state := t.state)), t.result)
    }

    /**
     Opens a session if none is stored, or sends the answer to an offer that was received.  What is
     returned is the message to post; its effect is stored only if posting it succeeded.
     */
    function Chat(name: Bytes, peer: KeyId, made: Uuid, spk: KeyId, posted: bool): Done<Option<Message>> {
      var (named, id) := ByName(name, made);
      match named.Get(id)
      case Err(_) =>
        var offered := Offer(name, peer, made, spk);
        if offered.result.Err? then Done(named, Err(offered.result.error))
        else Done(if posted then offered.client else named, Ok(Some(offered.result.value)))
      case Ok(sess) =>
        if sess.pendingAck.None? then Done(named, Ok(None))
        else Done(if posted then named.Put(sess.(pendingAck := None)) else named, Ok(sess.pendingAck))
    }

    /** Closes a stored session; it is deleted only if posting the close message succeeded. */
    function Shut(name: Bytes, made: Uuid, posted: bool): Done<Message> {
      var (named, id) := ByName(name, made);
      match named.Get(id)
      case Err(e) => Done(named, Err(e))
      case Ok(sess) =>
        var t := sess.state.Shut();
        Done(if posted then named.Delete(sess.(state := t.state)) else named, t.result)
    }
  }

  /** The stored session that an identifier finds: whose it is and which answer is still to be sent. */
  predicate Holds(c: ClientState, id: Uuid, name: Bytes, peerKey: KeyId, pending: Option<Message>) {
    && c.Get(id).Ok? && c.Get(id).value.name == name
    && c.Get(id).value.state.peerKey == peerKey && c.Get(id).value.pendingAck == pending
  }

  /** The same owner, and the same files but for one. */
  ghost predicate OthersKept(c: ClientState, d: ClientState, entropy: Bytes) {
    && d.key == c.key && d.me == c.me
    && forall e :: e != entropy ==> (e in d.files <==> e in c.files) && (e in c.files ==> d.files[e] == c.files[e])
  }

  /** One name and one file are gone, and nothing else has changed. */
  ghost predicate Forgot(c: ClientState, d: ClientState, name: Bytes, entropy: Bytes) {
    && OthersKept(c, d, entropy) && entropy !in d.files && name !in d.sessions
    && forall n :: n != name ==>
         (n in d.sessions <==> n in c.sessions) && (n in c.sessions ==> d.sessions[n] == c.sessions[n])
  }

  lemma {:induction false} AcceptKeepsValid(
    c: ClientState, sess: Loaded, msg: Message, draws: (KeyId, KeyId), noise: Bytes)
    requires c.Valid() && sess.state.Valid()
    ensures c.Accept(sess, msg, draws, noise).client.Valid()
  {
    ReceiveKeepsValid(sess.state, msg, draws, noise);
    SavedIsLoadable(sess.state.Receive(msg, draws, noise).state);
  }

  lemma {:induction false} SendKeepsValid(
    c: ClientState, name: Bytes, made: Uuid, text: Bytes, draw: KeyId, now: nat, posted: bool)
    requires c.Valid()
    ensures c.Send(name, made, text, draw, now, posted).client.Valid()
  {
    var (named, id) := c.ByName(name, made);
    if named.Get(id).Ok? {
      var sess := named.Get(id).value.state;
      if sess.ratchet.Some? {
        OperationsKeepValid(sess.ratchet.value, text, Short, draw);
      }
      SavedIsLoadable(sess.Send(text, draw, now).state);
    }
  }

  lemma {:induction false} ChatKeepsValid(
    c: ClientState, name: Bytes, peer: KeyId, made: Uuid, spk: KeyId, posted: bool)
    requires c.Valid()
    ensures c.Chat(name, peer, made, spk, posted).client.Valid()
  {
    var (named, id) := c.ByName(name, made);
    if named.Get(id).Ok? {
      SavedIsLoadable(named.Get(id).value.state);
    }
  }

  lemma {:induction false} ShutKeepsValid(c: ClientState, name: Bytes, made: Uuid, posted: bool)
    requires c.Valid()
    ensures c.Shut(name, made, posted).client.Valid()
  {
  }

  /** A message that carries a re-stamped identifier finds the session stored under that identifier. */
  lemma {:induction false} RestampedFindsSession(c: ClientState, id: Uuid, now: nat)
    ensures c.Get(EncTime(id, now)) == c.Get(id)
  {
    assert Fit(id, 16) == id;
  }

  /** The client object with its session manager. */
  class Client {
    const key: KeyId
    const me: Bytes
    var sessions: map<Bytes, Uuid>
    var files: map<Bytes, File>

    ghost function Value(): ClientState
      reads this
    {
      ClientState(key, me, sessions, files)
    }

    constructor (identity: KeyId, name: Bytes)
      ensures Value() == ClientState(identity, name, map[], map[])
    {
      key, me := identity, name;
      sessions, files := map[], map[];
    }

    method ByName(name: Bytes, made: Uuid) returns (id: Uuid)
      modifies this`sessions
      ensures (Value(), id) == old(Value()).ByName(name, made)
    {
      if name !in sessions {
        sessions := sessions[name := made];
      }
      id := sessions[name];
    }

    method Get(id: Uuid) returns (found: Result<File>, sess: Session?)
      requires Value().Valid()
      ensures found.Ok? <==> sess != null
      ensures found.Err? ==> Value().Get(id) == Err(NoSuchSession) && found.error == NoSuchSession
      ensures sess != null ==>
                && fresh(sess) && sess.Valid() && fresh(sess.Footprint())
                && Entropy(id) in files && found == Ok(files[Entropy(id)])
                && Value().Get(id) == Ok(Loaded(found.value.name, found.value.pendingAck, sess.Value()))
    {
      if Entropy(id) !in files {
        return Err(NoSuchSession), null;
      }
      var file := files[Entropy(id)];
      sess := new Session.Load(file.session, file.peerKey, key);
      found := Ok(file);
    }

    method Put(name: Bytes, pendingAck: Option<Message>, sess: Session)
      requires sess.Valid()
      modifies this`files
      ensures sess.Valid() && sess.Value() == old(sess.Value())
      ensures Value() == old(Value()).Put(Loaded(name, pendingAck, sess.Value()))
    {
      var saved := sess.MarshalBinary();
      files := files[Entropy(sess.localUuid) := File(name, sess.peerKey, pendingAck, saved)];
    }

    method Delete(name: Bytes, sess: Session)
      requires sess.Valid()
      modifies this
      ensures forall pending :: Value() == old(Value()).Delete(Loaded(name, pending, old(sess.Value())))
    {
      sessions := sessions - {name};
      files := files - {Entropy(sess.localUuid)};
    }

    method Send(name: Bytes, made: Uuid, text: Bytes, draw: KeyId, now: nat, posted: bool)
        returns (msg: Result<Message>)
      requires Value().Valid()
      modifies this
      ensures Value().Valid()
      ensures Done(Value(), msg) == old(Value()).Send(name, made, text, draw, now, posted)
    {
      SendKeepsValid(Value(), name, made, text, draw, now, posted);
      var id := ByName(name, made);
      var file, sess := Get(id);
      if sess == null {
        return Err(NoSuchSession);
      }
      msg := sess.Send(text, draw, now);
      if msg.Err? || !posted {
        return;
      }
      Put(file.value.name, file.value.pendingAck, sess);
    }

    method HandleRatchet(msg: Message, made: Uuid, peer: KeyId, draws: (KeyId, KeyId), noise: Bytes)
        returns (received: Result<Option<Received>>)
      requires Value().Valid()
      modifies this
      ensures Value().Valid()
      ensures Done(Value(), received) == old(Value()).Handle(msg, made, peer, draws, noise)
    {
      var sess: Session, name, pendingAck;
      if msg.Offer? {
        var id := ByName(msg.nick, made);
        sess := new Session(id, me, key, peer);
        name, pendingAck := msg.nick, None;
      } else {
        var file, found := Get(IdOf(msg));
        if found == null {
          return Ok(None);
        }
        sess, name, pendingAck := found, file.value.name, file.value.pendingAck;
      }
      AcceptKeepsValid(Value(), Loaded(name, pendingAck, sess.Value()), msg, draws, noise);
      var result := sess.Receive(msg, draws, noise);
      if result.Err? {
        return Err(result.error);
      }
      if result.value.Established? {
        pendingAck := result.value.answer;
      }
      Put(name, pendingAck, sess);
      if result.value.Closed? {
        Delete(name, sess);
      }
      return Ok(Some(result.value));
    }

    method Chat(name: Bytes, peer: KeyId, made: Uuid, spk: KeyId, posted: bool)
        returns (msg: Result<Option<Message>>)
      requires Value().Valid()
      modifies this
      ensures Value().Valid()
      ensures Done(Value(), msg) == old(Value()).Chat(name, peer, made, spk, posted)
    {
      ChatKeepsValid(Value(), name, peer, made, spk, posted);
      var id := ByName(name, made);
      var file, sess := Get(id);
      if sess == null {
        var started := new Session(id, me, key, peer);
        var offer := started.CreateOffer(spk);
        if offer.Err? {
          return Err(offer.error);
        }
        if posted {
          Put(name, None, started);
        }
        return Ok(Some(offer.value));
      }
      if file.value.pendingAck.Some? && posted {
        Put(file.value.name, None, sess);
      }
      return Ok(file.value.pendingAck);
    }

    method Close(name: Bytes, made: Uuid, posted: bool) returns (msg: Result<Message>)
      requires Value().Valid()
      modifies this
      ensures Value().Valid()
      ensures Done(Value(), msg) == old(Value()).Shut(name, made, posted)
    {
      ShutKeepsValid(Value(), name, made, posted);
      var id := ByName(name, made);
      var file, sess := Get(id);
      if sess == null {
        return Err(NoSuchSession);
      }
      var close := sess.Close();
      if posted {
        Delete(file.value.name, sess);
      }
      return Ok(close);
    }
  }
}
