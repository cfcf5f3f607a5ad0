/**
 * The stand-alone server in main.go, the one `go run .` executes. It keeps
 * the same global client list and history as the `internal` package, with
 * these differences: the naming loop checks only the length of the line
 * (two clients may share a name), the join notice has an empty Sender that
 * Broadcast fills in with the joining client's name, there is no banner,
 * and Broadcast reads the sender's Name whenever the message's Sender is
 * empty, also when there is no sender. RemoveClient makes exactly that
 * call, so every handler that returns panics the process.
 */
module MainProgram {
  import opened Strings
  import opened Chat
  import opened ChatState
  import InternalServer

  /**
   * Broadcast reads `sender.Name` when the message's Sender is empty; with
   * no sender that is a nil pointer dereference.
   */
  predicate DereferencesNil(message: Message, sender: Option<ClientId>) {
    message.sender == "" && sender.None?
  }

  /** The message as Broadcast stores and sends it: an empty Sender becomes the sending client's name, a zero Time now. */
  function Filled(message: Message, sender: Option<ClientId>, name: map<ClientId, string>, now: string): Message
    requires !DereferencesNil(message, sender)
    requires sender.Some? ==> sender.value in name
  {
    var m := if message.sender == "" then message.(sender := name[sender.value]) else message;
    if m.time.Zero? then m.(time := At(now)) else m
  }

  /**
   * The naming loop's refusal test: the raw line is shorter than two
   * characters or the read failed. Names in use are not looked at.
   */
  predicate Refused(line: Line) {
    |line.data| < 2 || line.failed
  }

  /** The join notice as stored: its empty Sender filled in with the joining client's own name. */
  function JoinNotice(name: string, now: string): Message {
    Message(name, "\n" + name + JoinChatMessage, At(now))
  }

  /** The leave notice as RemoveClient builds it: no sender and an empty Sender. */
  function LeaveNotice(name: string): Message {
    Message("", "\n" + name + LeaveChatMessage, Zero)
  }

  /**
   * Broadcast. When the message's Sender is empty and there is no sender it
   * panics before writing or storing anything, and the process is gone.
   * Otherwise every connected client except the sender receives the wire
   * form and its own prompt, and the filled-in message is appended to the
   * history.
   */
  method Broadcast(r: Registry, message: Message, sender: Option<ClientId>, now: string)
    requires r.Valid() && !r.panicked
    requires sender.Some? ==> sender.value in r.name
    modifies r`out, r`history, r`panicked
    ensures r.Valid()
    ensures r.panicked == DereferencesNil(message, sender)
    ensures r.clients == old(r.clients) && r.name == old(r.name)
    ensures r.panicked ==> r.history == old(r.history) && r.out == old(r.out)
    ensures !r.panicked ==>
      && r.history == old(r.history) + [Filled(message, sender, r.name, now)]
      && Delivered(old(r.out), r.out, r.clients, r.name, sender, Wire(Filled(message, sender, r.name, now)), now)
    ensures !r.panicked && sender.Some? && sender.value in old(r.out) ==> r.out[sender.value] == old(r.out[sender.value])
  {
    var m := message;
    if m.sender == "" {
      if sender.None? {
        r.panicked := true;
        return;
      }
      m := m.(sender := r.name[sender.value]);
    }
    if m.time.Zero? {
      m := m.(time := At(now));
    }
    r.Fanout(Wire(m), sender, now);
    r.history := r.history + [m];
  }

  /**
   * RemoveClient as written: the first entry identical to `c` is spliced
   * out, then the leave notice is broadcast with no sender and an empty
   * Sender, which always panics: nobody is told, nothing is stored.
   */
  method RemoveClient(r: Registry, c: ClientId, now: string)
    requires r.Valid() && !r.panicked && c in r.name
    modifies r
    ensures r.Valid()
    ensures r.panicked
    ensures r.clients == Without(old(r.clients), c)
    ensures forall d :: d in r.clients <==> d in old(r.clients) && d != c
    ensures r.name == old(r.name) && r.history == old(r.history) && r.out == old(r.out)
  {
    r.Remove(c);
    Broadcast(r, LeaveNotice(r.name[c]), None, now);
  }

  /**
   * RemoveClient with the nil check that the `internal` package's Broadcast
   * has: the leave notice, its Sender still empty, reaches every client
   * left and is stored.
   */
  method RemoveClientGuarded(r: Registry, c: ClientId, now: string)
    requires r.Valid() && !r.panicked && c in r.name
    modifies r
    ensures r.Valid() && !r.panicked
    ensures r.clients == Without(old(r.clients), c)
    ensures forall d :: d in r.clients <==> d in old(r.clients) && d != c
    ensures r.name == old(r.name)
    ensures r.history == old(r.history) + [LeaveNotice(r.name[c]).(time := At(now))]
    ensures Delivered(old(r.out), r.out, r.clients, r.name, None, Wire(LeaveNotice(r.name[c]).(time := At(now))), now)
  {
    r.Remove(c);
    InternalServer.Broadcast(r, LeaveNotice(r.name[c]), None, now);
  }

  /** The welcome text and the name prompt, written to a new connection. */
  method Greet(r: Registry, c: ClientId)
    requires r.Valid() && !r.panicked && c !in r.out
    modifies r
    ensures r.Valid() && !r.panicked
    ensures r.clients == old(r.clients) && r.name == old(r.name) && r.history == old(r.history)
    ensures r.out == old(r.out)[c := [WelcomeMessage, EnterNamePrompt]]
  {
    r.Connect(c);
    r.Write(c, WelcomeMessage);
    r.Write(c, EnterNamePrompt);
    assert r.out[c] == [WelcomeMessage, EnterNamePrompt];
    assert r.out == old(r.out)[c := r.out[c]];
  }

  /**
   * One pass of the naming loop. A line is refused, with "Wrong name", when
   * it is shorter than two characters (line feed included) or came with a
   * read error; nothing else is checked, so a name already in use is
   * accepted. An accepted line names the client by its trimmed text; then
   * either the server already holds ten clients, the client is told so and
   * the deferred RemoveClient panics, or the client is admitted.
   */
  method NameStep(r: Registry, c: ClientId, line: Line) returns (next: Phase)
    requires r.Valid() && r.NoBlankMessages() && !r.panicked
    requires c in r.out && c !in r.clients
    modifies r
    ensures r.Valid() && r.NoBlankMessages()
    ensures r.panicked <==> next == Crashed
    ensures next == Naming || next == Active || next == Crashed
    ensures c in r.clients <==> next == Active
    ensures forall d :: d != c ==> (d in r.clients <==> d in old(r.clients))
    ensures old(r.history) <= r.history
    ensures Extends(old(r.out), r.out)
    ensures (next == Naming) == Refused(line)
    ensures next == Naming ==>
      && r.clients == old(r.clients) && r.name == old(r.name) && r.history == old(r.history)
      && r.out == old(r.out)[c := old(r.out[c]) + [WrongNameMessage, EnterNamePrompt]]
    ensures next != Naming ==> r.name == old(r.name)[c := TrimSpace(line.data)]
    ensures next == Crashed ==>
      && |old(r.clients)| >= MaxClients
      && r.clients == old(r.clients) && r.history == old(r.history)
      && r.out == old(r.out)[c := old(r.out[c]) + [ServerFullMessage]]
    ensures next == Active ==>
      && |old(r.clients)| < MaxClients
      && r.clients == old(r.clients) + [c]
      && r.history == old(r.history) + [JoinNotice(TrimSpace(line.data), line.at)]
      && r.out[c] == old(r.out[c]) + Transcript(old(r.history)) + [Prompt(line.at, TrimSpace(line.data))]
      && Delivered(old(r.out), r.out, r.clients, r.name, Some(c), Wire(JoinNotice(TrimSpace(line.data), line.at)), line.at)
  {
    if Refused(line) {
      r.Write(c, WrongNameMessage);
      r.Write(c, EnterNamePrompt);
      assert r.out[c] == old(r.out[c]) + [WrongNameMessage, EnterNamePrompt];
      assert r.out == old(r.out)[c := r.out[c]];
      return Naming;
    }
    next := Admit(r, c, TrimSpace(line.data), line.at);
  }

  /**
   * Admission of a client named `nm`: the name is set; if the list already
   * holds MaxClients clients the client is told the server is full and the
   * deferred RemoveClient panics, otherwise the client is appended and
   * welcomed.
   */
  method Admit(r: Registry, c: ClientId, nm: string, now: string) returns (next: Phase)
    requires r.Valid() && r.NoBlankMessages() && !r.panicked
    requires c in r.out && c !in r.clients
    modifies r
    ensures r.Valid() && r.NoBlankMessages()
    ensures r.panicked <==> next == Crashed
    ensures next == Active || next == Crashed
    ensures next == Active <==> |old(r.clients)| < MaxClients
    ensures r.name == old(r.name)[c := nm]
    ensures old(r.history) <= r.history
    ensures Extends(old(r.out), r.out)
    ensures next == Crashed ==>
      && r.clients == old(r.clients) && r.history == old(r.history)
      && r.out == old(r.out)[c := old(r.out[c]) + [ServerFullMessage]]
    ensures next == Active ==>
      && r.clients == old(r.clients) + [c]
      && r.history == old(r.history) + [JoinNotice(nm, now)]
      && r.out[c] == old(r.out[c]) + Transcript(old(r.history)) + [Prompt(now, nm)]
      && Delivered(old(r.out), r.out, r.clients, r.name, Some(c), Wire(JoinNotice(nm, now)), now)
  {
    r.name := r.name[c := nm];
    var added := r.TryAdd(c);
    if !added {
      TurnAway(r, c, now);
      return Crashed;
    }
    Welcome(r, c, now);
    return Active;
  }

  /**
   * A client refused because the server is full: it is told so, and the
   * deferred RemoveClient finds nothing to splice out and then panics.
   */
  method TurnAway(r: Registry, c: ClientId, now: string)
    requires r.Valid() && r.NoBlankMessages() && !r.panicked
    requires c in r.out && c in r.name && c !in r.clients
    modifies r
    ensures r.Valid() && r.NoBlankMessages() && r.panicked
    ensures r.name == old(r.name) && r.clients == old(r.clients) && r.history == old(r.history)
    ensures r.out == old(r.out)[c := old(r.out[c]) + [ServerFullMessage]]
  {
    r.Write(c, ServerFullMessage);
    assert r.clients[..|r.clients|] == r.clients;
    WithoutSplit(r.clients, c, |r.clients|);
    RemoveClient(r, c, now);
  }

  /** A client just appended: the history is replayed to it, it is announced to the others, and prompted. */
  method Welcome(r: Registry, c: ClientId, now: string)
    requires r.Valid() && r.NoBlankMessages() && !r.panicked
    requires c in r.clients
    modifies r
    ensures r.Valid() && r.NoBlankMessages() && !r.panicked
    ensures r.name == old(r.name) && r.clients == old(r.clients)
    ensures r.history == old(r.history) + [JoinNotice(r.name[c], now)]
    ensures r.out.Keys == old(r.out).Keys
    ensures r.out[c] == old(r.out[c]) + Transcript(old(r.history)) + [Prompt(now, r.name[c])]
    ensures Delivered(old(r.out), r.out, r.clients, r.name, Some(c), Wire(JoinNotice(r.name[c], now)), now)
  {
    r.Replay(c);
    ghost var b1 := r.out;
    Broadcast(r, Message("", "\n" + r.name[c] + JoinChatMessage, Zero), Some(c), now);
    ghost var a1 := r.out;
    r.Write(c, Prompt(now, r.name[c]));
    DeliveredAround(old(r.out), b1, a1, r.out, r.clients, r.name, c, Wire(JoinNotice(r.name[c], now)), now);
  }

  /**
   * One pass of the message loop. A read error makes the handler return and
   * the deferred RemoveClient panics. A line that trims to nothing is
   * dropped; any other line is broadcast under the client's name to
   * everybody but the client. Either way the client is prompted again.
   */
  method ChatStep(r: Registry, c: ClientId, line: Line) returns (next: Phase)
    requires r.Valid() && r.NoBlankMessages() && !r.panicked
    requires c in r.clients
    modifies r
    ensures r.Valid() && r.NoBlankMessages()
    ensures r.panicked <==> next == Crashed
    ensures r.name == old(r.name)
    ensures next == if line.failed then Crashed else Active
    ensures c in r.clients <==> next == Active
    ensures forall d :: d != c ==> (d in r.clients <==> d in old(r.clients))
    ensures old(r.history) <= r.history
    ensures Extends(old(r.out), r.out)
    ensures line.failed ==>
      && r.clients == Without(old(r.clients), c)
      && r.history == old(r.history) && r.out == old(r.out)
    ensures !line.failed ==>
      && r.clients == old(r.clients)
      && r.out[c] == old(r.out[c]) + [Prompt(line.at, r.name[c])]
    ensures !line.failed && TrimSpace(line.data) == "" ==>
      && r.history == old(r.history)
      && r.out == old(r.out)[c := old(r.out[c]) + [Prompt(line.at, r.name[c])]]
    ensures !line.failed && TrimSpace(line.data) != "" ==>
      && r.history == old(r.history) + [Message(r.name[c], TrimSpace(line.data), At(line.at))]
      && Delivered(old(r.out), r.out, r.clients, r.name, Some(c),
                   Wire(Message(r.name[c], TrimSpace(line.data), At(line.at))), line.at)
  {
    if line.failed {
      RemoveClient(r, c, line.at);
      return Crashed;
    }
    Post(r, c, line);
    return Active;
  }

  /**
   * A line read without error: unless it trims to nothing it is broadcast
   * under the client's name to everybody but the client; then the client
   * is prompted again.
   */
  method Post(r: Registry, c: ClientId, line: Line)
    requires r.Valid() && r.NoBlankMessages() && !r.panicked
    requires c in r.clients
    modifies r
    ensures r.Valid() && r.NoBlankMessages() && !r.panicked
    ensures r.name == old(r.name) && r.clients == old(r.clients)
    ensures old(r.history) <= r.history
    ensures Extends(old(r.out), r.out)
    ensures r.out[c] == old(r.out[c]) + [Prompt(line.at, r.name[c])]
    ensures TrimSpace(line.data) == "" ==>
      && r.history == old(r.history)
      && r.out == old(r.out)[c := old(r.out[c]) + [Prompt(line.at, r.name[c])]]
    ensures TrimSpace(line.data) != "" ==>
      && r.history == old(r.history) + [Message(r.name[c], TrimSpace(line.data), At(line.at))]
      && Delivered(old(r.out), r.out, r.clients, r.name, Some(c),
                   Wire(Message(r.name[c], TrimSpace(line.data), At(line.at))), line.at)
  {
    var text := TrimSpace(line.data);
    if text != "" {
      Broadcast(r, Message(r.name[c], text, At(line.at)), Some(c), line.at);
    }
    r.Write(c, Prompt(line.at, r.name[c]));
  }

  /**
   * HandleClient for one connection, reading `lines` in order. When the
   * input runs out the handler is still blocked in a read (Naming or
   * Active, every line used). Every other way out of the handler runs the
   * deferred RemoveClient, which panics: the result is then Crashed.
   */
  method HandleClient(r: Registry, c: ClientId, lines: seq<Line>) returns (next: Phase, used: nat)
    requires r.Valid() && r.NoBlankMessages() && !r.panicked
    requires c !in r.out
    modifies r
    ensures r.Valid() && r.NoBlankMessages()
    ensures r.panicked <==> next == Crashed
    ensures used <= |lines|
    ensures next == Naming || next == Active || next == Crashed
    ensures next != Crashed ==> used == |lines|
    ensures c in r.clients <==> next == Active
    ensures forall d :: d != c ==> (d in r.clients <==> d in old(r.clients))
    ensures old(r.history) <= r.history
    ensures Extends(old(r.out), r.out)
    ensures c in r.out && [WelcomeMessage, EnterNamePrompt] <= r.out[c]
    ensures next == Naming ==>
      && r.clients == old(r.clients) && r.history == old(r.history)
      && forall k :: 0 <= k < |lines| ==> Refused(lines[k])
  {
    Greet(r, c);
    next, used := Naming, 0;
    while used < |lines| && next == Naming
      invariant used <= |lines|
      invariant r.Valid() && r.NoBlankMessages()
      invariant r.panicked <==> next == Crashed
      invariant c in r.out
      invariant next == Naming || next == Active || next == Crashed
      invariant c in r.clients <==> next == Active
      invariant forall d :: d != c ==> (d in r.clients <==> d in old(r.clients))
      invariant old(r.history) <= r.history
      invariant Extends(old(r.out), r.out)
      invariant [WelcomeMessage, EnterNamePrompt] <= r.out[c]
      invariant next == Naming ==>
        && r.clients == old(r.clients) && r.history == old(r.history)
        && forall k :: 0 <= k < used ==> Refused(lines[k])
    {
      ghost var before := r.out;
      next := NameStep(r, c, lines[used]);
      ExtendsTrans(old(r.out), before, r.out);
      used := used + 1;
    }
    while used < |lines| && next == Active
      invariant used <= |lines|
      invariant r.Valid() && r.NoBlankMessages()
      invariant r.panicked <==> next == Crashed
      invariant c in r.out
      invariant next == Naming || next == Active || next == Crashed
      invariant next == Naming ==> used == |lines|
      invariant c in r.clients <==> next == Active
      invariant forall d :: d != c ==> (d in r.clients <==> d in old(r.clients))
      invariant old(r.history) <= r.history
      invariant Extends(old(r.out), r.out)
      invariant [WelcomeMessage, EnterNamePrompt] <= r.out[c]
      invariant next == Naming ==>
        && r.clients == old(r.clients) && r.history == old(r.history)
        && forall k :: 0 <= k < used ==> Refused(lines[k])
    {
      ghost var before := r.out;
      next := ChatStep(r, c, lines[used]);
      ExtendsTrans(old(r.out), before, r.out);
      used := used + 1;
    }
  }
}
