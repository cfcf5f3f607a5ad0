/**
 * The chat server of the `internal` package (internal/server.go): Broadcast,
 * isNameTaken, RemoveClient and the per-connection handler HandleClient,
 * working on the package's global client list and message history.
 *
 * HandleClient is split the way its code is: a greeting, the naming loop
 * (one NameStep per line read), and the message loop (one ChatStep per line
 * read). The deferred RemoveClient runs inside the step that makes the
 * handler return.
 */
module InternalServer {
  import opened Strings
  import opened Chat
  import opened ChatState

  /** The message as Broadcast stores and sends it: Sender defaults to the sending client's name, Time to now. */
  function Filled(message: Message, sender: Option<ClientId>, name: map<ClientId, string>, now: string): Message
    requires sender.Some? ==> sender.value in name
  {
    var m := if sender.Some? && message.sender == "" then message.(sender := name[sender.value]) else message;
    if m.time.Zero? then m.(time := At(now)) else m
  }

  /**
   * The naming loop's refusal test: the raw line, line feed included, is
   * shorter than two characters, the read failed, or the trimmed name is
   * taken.
   */
  predicate Refused(line: Line, taken: bool) {
    |line.data| < 2 || line.failed || taken
  }

  /**
   * Because the length test looks at the raw line, a line of two or more
   * characters read without error is refused only when its name is taken;
   * an all-white-space such line gets through and names the client with the
   * empty string.
   */
  lemma RawLengthCheck(line: Line, taken: bool)
    requires !line.failed && |line.data| >= 2
    ensures Refused(line, taken) == taken
    ensures AllSpace(line.data) ==> TrimSpace(line.data) == ""
  {
    TrimSpaceEmpty(line.data);
  }

  /** The join notice as stored: sender "SERVER", stamped with the admission time. */
  function JoinNotice(name: string, now: string): Message {
    Message("SERVER", name + JoinChatMessage, At(now))
  }

  /** The leave notice as stored: sender "SERVER", stamped with the time of the removal. */
  function LeaveNotice(name: string, now: string): Message {
    Message("SERVER", name + LeaveChatMessage, At(now))
  }

  /**
   * Broadcast: every connected client except the sender receives the wire
   * form of the message and then its own prompt; the message, with its
   * sender and time filled in, is appended to the history, also when nobody
   * received it.
   */
  method Broadcast(r: Registry, message: Message, sender: Option<ClientId>, now: string)
    requires r.Valid()
    requires sender.Some? ==> sender.value in r.name
    modifies r`out, r`history
    ensures r.Valid()
    ensures r.clients == old(r.clients) && r.name == old(r.name)
    ensures r.history == old(r.history) + [Filled(message, sender, r.name, now)]
    ensures Delivered(old(r.out), r.out, r.clients, r.name, sender, Wire(Filled(message, sender, r.name, now)), now)
    ensures sender.Some? && sender.value in old(r.out) ==> r.out[sender.value] == old(r.out[sender.value])
  {
    var m := message;
    if sender.Some? {
      if m.sender == "" {
        m := m.(sender := r.name[sender.value]);
      }
    }
    if m.time.Zero? {
      m := m.(time := At(now));
    }
    r.Fanout(Wire(m), sender, now);
    r.history := r.history + [m];
  }

  /**
   * RemoveClient: splices out the first entry identical to `c` (none if it
   * was never admitted), then announces the departure to every client still
   * connected.
   */
  method RemoveClient(r: Registry, c: ClientId, now: string)
    requires r.Valid() && c in r.name
    modifies r
    ensures r.Valid()
    ensures r.clients == Without(old(r.clients), c)
    ensures forall d :: d in r.clients <==> d in old(r.clients) && d != c
    ensures r.name == old(r.name)
    ensures r.history == old(r.history) + [LeaveNotice(r.name[c], now)]
    ensures Delivered(old(r.out), r.out, r.clients, r.name, None, Wire(LeaveNotice(r.name[c], now)), now)
  {
    r.Remove(c);
    Broadcast(r, Message("SERVER", r.name[c] + LeaveChatMessage, Zero), None, now);
  }

  /** The welcome text, the banner and the name prompt, written to a new connection. */
  method Greet(r: Registry, c: ClientId, banner: string)
    requires r.Valid() && c !in r.out
    modifies r
    ensures r.Valid()
    ensures r.clients == old(r.clients) && r.name == old(r.name) && r.history == old(r.history)
    ensures r.out == old(r.out)[c := [WelcomeMessage, banner + "\n", EnterNamePrompt]]
  {
    r.Connect(c);
    r.Write(c, WelcomeMessage);
    r.Write(c, banner + "\n");
    r.Write(c, EnterNamePrompt);
    assert r.out[c] == [WelcomeMessage, banner + "\n", EnterNamePrompt];
    assert r.out == old(r.out)[c := r.out[c]];
  }

  /**
   * One pass of the naming loop. A line is refused when it is shorter than
   * two characters (line feed included), came with a read error, or trims to
   * a name some connected client has; the reply says "taken" exactly when
   * the name is taken. An accepted line names the client by its trimmed
   * text; then either the server is full (the client is told so, and the
   * deferred RemoveClient still announces its departure to everybody) or the
   * client is appended, sent the whole history, announced to everybody else,
   * and prompted.
   */
  method NameStep(r: Registry, c: ClientId, line: Line) returns (next: Phase)
    requires r.Valid() && r.DistinctNames() && r.NoBlankMessages()
    requires c in r.out && c !in r.clients
    modifies r
    ensures r.Valid() && r.DistinctNames() && r.NoBlankMessages()
    ensures next == Naming || next == Active || next == Closed
    ensures c in r.clients <==> next == Active
    ensures forall d :: d != c ==> (d in r.clients <==> d in old(r.clients))
    ensures old(r.history) <= r.history
    ensures Extends(old(r.out), r.out)
    ensures (next == Naming) == Refused(line, old(r.NameTaken(line.data)))
    ensures next == Naming ==>
      && r.clients == old(r.clients) && r.name == old(r.name) && r.history == old(r.history)
      && r.out == old(r.out)[c := old(r.out[c]) + [if old(r.NameTaken(line.data)) then NameTakenMessage else WrongNameMessage, EnterNamePrompt]]
    ensures next != Naming ==> r.name == old(r.name)[c := TrimSpace(line.data)]
    ensures next == Closed ==>
      && |old(r.clients)| >= MaxClients
      && r.clients == old(r.clients)
      && r.history == old(r.history) + [LeaveNotice(TrimSpace(line.data), line.at)]
      && r.out[c] == old(r.out[c]) + [ServerFullMessage]
      && Delivered(old(r.out), r.out, r.clients, r.name, Some(c), Wire(LeaveNotice(TrimSpace(line.data), line.at)), line.at)
    ensures next == Active ==>
      && |old(r.clients)| < MaxClients
      && r.clients == old(r.clients) + [c]
      && r.history == old(r.history) + [JoinNotice(TrimSpace(line.data), line.at)]
      && r.out[c] == old(r.out[c]) + Transcript(old(r.history)) + [Prompt(line.at, TrimSpace(line.data))]
      && Delivered(old(r.out), r.out, r.clients, r.name, Some(c), Wire(JoinNotice(TrimSpace(line.data), line.at)), line.at)
  {
    var taken := r.IsNameTaken(line.data);
    if Refused(line, taken) {
      r.Write(c, if taken then NameTakenMessage else WrongNameMessage);
      r.Write(c, EnterNamePrompt);
      assert r.out[c] == old(r.out[c]) + [if taken then NameTakenMessage else WrongNameMessage, EnterNamePrompt];
      assert r.out == old(r.out)[c := r.out[c]];
      return Naming;
    }
    next := Admit(r, c, TrimSpace(line.data), line.at);
  }

  /**
   * Admission of a client that chose the free name `nm`: the name is set;
   * if the list already holds MaxClients clients, the client is told the
   * server is full and the deferred RemoveClient still announces its
   * departure to everybody; otherwise the client is appended, sent the
   * whole history, announced to everybody else, and prompted.
   */
  method Admit(r: Registry, c: ClientId, nm: string, now: string) returns (next: Phase)
    requires r.Valid() && r.DistinctNames() && r.NoBlankMessages()
    requires c in r.out && c !in r.clients
    requires forall d :: d in r.clients ==> r.name[d] != nm
    modifies r
    ensures r.Valid() && r.DistinctNames() && r.NoBlankMessages()
    ensures next == Active || next == Closed
    ensures next == Active <==> |old(r.clients)| < MaxClients
    ensures r.name == old(r.name)[c := nm]
    ensures old(r.history) <= r.history
    ensures Extends(old(r.out), r.out)
    ensures next == Closed ==>
      && r.clients == old(r.clients)
      && r.history == old(r.history) + [LeaveNotice(nm, now)]
      && r.out[c] == old(r.out[c]) + [ServerFullMessage]
      && Delivered(old(r.out), r.out, r.clients, r.name, Some(c), Wire(LeaveNotice(nm, now)), now)
    ensures next == Active ==>
      && r.clients == old(r.clients) + [c]
      && r.history == old(r.history) + [JoinNotice(nm, now)]
      && r.out[c] == old(r.out[c]) + Transcript(old(r.history)) + [Prompt(now, nm)]
      && Delivered(old(r.out), r.out, r.clients, r.name, Some(c), Wire(JoinNotice(nm, now)), now)
  {
    r.name := r.name[c := nm];
    var added := r.TryAdd(c);
    if !added {
      TurnAway(r, c, now);
      return Closed;
    }
    Welcome(r, c, now);
    return Active;
  }

  /** A named client the full server refused: it is told so, then the deferred RemoveClient runs. */
  method TurnAway(r: Registry, c: ClientId, now: string)
    requires r.Valid() && r.DistinctNames() && r.NoBlankMessages()
    requires c in r.out && c in r.name && c !in r.clients
    modifies r
    ensures r.Valid() && r.DistinctNames() && r.NoBlankMessages()
    ensures r.name == old(r.name) && r.clients == old(r.clients)
    ensures r.history == old(r.history) + [LeaveNotice(r.name[c], now)]
    ensures r.out.Keys == old(r.out).Keys
    ensures r.out[c] == old(r.out[c]) + [ServerFullMessage]
    ensures Delivered(old(r.out), r.out, r.clients, r.name, Some(c), Wire(LeaveNotice(r.name[c], now)), now)
  {
    r.Write(c, ServerFullMessage);
    ghost var b1 := r.out;
    assert r.clients[..|r.clients|] == r.clients;
    WithoutSplit(r.clients, c, |r.clients|);
    RemoveClient(r, c, now);
    DeliveredAround(old(r.out), b1, r.out, r.out, r.clients, r.name, c, Wire(LeaveNotice(r.name[c], now)), now);
  }

  /** A client just appended: the history is replayed to it, it is announced to the others, and prompted. */
  method Welcome(r: Registry, c: ClientId, now: string)
    requires r.Valid() && r.DistinctNames() && r.NoBlankMessages()
    requires c in r.clients
    modifies r
    ensures r.Valid() && r.DistinctNames() && r.NoBlankMessages()
    ensures r.name == old(r.name) && r.clients == old(r.clients)
    ensures r.history == old(r.history) + [JoinNotice(r.name[c], now)]
    ensures r.out.Keys == old(r.out).Keys
    ensures r.out[c] == old(r.out[c]) + Transcript(old(r.history)) + [Prompt(now, r.name[c])]
    ensures Delivered(old(r.out), r.out, r.clients, r.name, Some(c), Wire(JoinNotice(r.name[c], now)), now)
  {
    r.Replay(c);
    ghost var b1 := r.out;
    Broadcast(r, Message("SERVER", r.name[c] + JoinChatMessage, Zero), Some(c), now);
    ghost var a1 := r.out;
    r.Write(c, Prompt(now, r.name[c]));
    DeliveredAround(old(r.out), b1, a1, r.out, r.clients, r.name, c, Wire(JoinNotice(r.name[c], now)), now);
  }

  /**
   * One pass of the message loop. A read error ends the handler: the
   * deferred RemoveClient takes the client out and tells everybody left. A
   * line that trims to nothing is dropped; any other line is broadcast under
   * the client's name to everybody but the client. Either way the client is
   * prompted again.
   */
  method ChatStep(r: Registry, c: ClientId, line: Line) returns (next: Phase)
    requires r.Valid() && r.DistinctNames() && r.NoBlankMessages()
    requires c in r.clients
    modifies r
    ensures r.Valid() && r.DistinctNames() && r.NoBlankMessages()
    ensures r.name == old(r.name)
    ensures next == if line.failed then Closed else Active
    ensures c in r.clients <==> next == Active
    ensures forall d :: d != c ==> (d in r.clients <==> d in old(r.clients))
    ensures old(r.history) <= r.history
    ensures Extends(old(r.out), r.out)
    ensures line.failed ==>
      && r.clients == Without(old(r.clients), c)
      && r.history == old(r.history) + [LeaveNotice(r.name[c], line.at)]
      && Delivered(old(r.out), r.out, r.clients, r.name, None, Wire(LeaveNotice(r.name[c], line.at)), line.at)
    ensures !line.failed ==>
      && r.clients == old(r.clients)
      && r.out[c] == old(r.out[c]) + [Prompt(line.at, r.name[c])]
    ensures !line.failed && TrimSpace(line.data) == "" ==>
      && r.history == old(r.history)
      && r.out == old(r.out)[c := old(r.out[c]) + [Prompt(line.at, r.name[c])]]
    ensures !line.failed && TrimSpace(line.data) != "" ==>
      && r.history == old(r.history) + [Message(r.name[c], TrimSpace(line.data), At(line.at))]
      && Delivered(old(r.out), r.out, r.clients, r.name, Some(c),
                   Wire(Message(r.name[c], TrimSpace(line.data), At(line.at))), line.at)
  {
    if line.failed {
      RemoveClient(r, c, line.at);
      return Closed;
    }
    var text := TrimSpace(line.data);
    if text != "" {
      Broadcast(r, Message(r.name[c], text, At(line.at)), Some(c), line.at);
    }
    r.Write(c, Prompt(line.at, r.name[c]));
    return Active;
  }

  /**
   * HandleClient for one connection, reading `lines` in order. When the
   * input runs out the handler is still blocked in a read: `next` is Naming
   * or Active and every line was used. Otherwise it returned (Closed), after
   * `used` lines. While naming, nothing shared changes, and every line
   * consumed was refused.
   */
  method HandleClient(r: Registry, c: ClientId, banner: string, lines: seq<Line>) returns (next: Phase, used: nat)
    requires r.Valid() && r.DistinctNames() && r.NoBlankMessages()
    requires c !in r.out
    modifies r
    ensures r.Valid() && r.DistinctNames() && r.NoBlankMessages()
    ensures used <= |lines|
    ensures next == Naming || next == Active || next == Closed
    ensures next != Closed ==> used == |lines|
    ensures c in r.clients <==> next == Active
    ensures forall d :: d != c ==> (d in r.clients <==> d in old(r.clients))
    ensures old(r.history) <= r.history
    ensures Extends(old(r.out), r.out)
    ensures c in r.out && [WelcomeMessage, banner + "\n", EnterNamePrompt] <= r.out[c]
    ensures next == Naming ==>
      && r.clients == old(r.clients) && r.history == old(r.history)
      && forall k :: 0 <= k < |lines| ==> Refused(lines[k], old(r.NameTaken(lines[k].data)))
  {
    Greet(r, c, banner);
    next, used := Naming, 0;
    while used < |lines| && next == Naming
      invariant used <= |lines|
      invariant r.Valid() && r.DistinctNames() && r.NoBlankMessages()
      invariant c in r.out
      invariant next == Naming || next == Active || next == Closed
      invariant c in r.clients <==> next == Active
      invariant forall d :: d != c ==> (d in r.clients <==> d in old(r.clients))
      invariant old(r.history) <= r.history
      invariant Extends(old(r.out), r.out)
      invariant [WelcomeMessage, banner + "\n", EnterNamePrompt] <= r.out[c]
      invariant next == Naming ==>
        && r.clients == old(r.clients) && r.history == old(r.history)
        && (forall d :: d in r.clients ==> r.name[d] == old(r.name[d]))
        && forall k :: 0 <= k < used ==> Refused(lines[k], old(r.NameTaken(lines[k].data)))
    {
      ghost var before := r.out;
      next := NameStep(r, c, lines[used]);
      ExtendsTrans(old(r.out), before, r.out);
      used := used + 1;
    }
    while used < |lines| && next == Active
      invariant used <= |lines|
      invariant r.Valid() && r.DistinctNames() && r.NoBlankMessages()
      invariant c in r.out
      invariant next == Naming || next == Active || next == Closed
      invariant next == Naming ==> used == |lines|
      invariant c in r.clients <==> next == Active
      invariant forall d :: d != c ==> (d in r.clients <==> d in old(r.clients))
      invariant old(r.history) <= r.history
      invariant Extends(old(r.out), r.out)
      invariant [WelcomeMessage, banner + "\n", EnterNamePrompt] <= r.out[c]
      invariant next == Naming ==>
        && r.clients == old(r.clients) && r.history == old(r.history)
        && (forall d :: d in r.clients ==> r.name[d] == old(r.name[d]))
        && forall k :: 0 <= k < used ==> Refused(lines[k], old(r.NameTaken(lines[k].data)))
    {
      ghost var before := r.out;
      next := ChatStep(r, c, lines[used]);
      ExtendsTrans(old(r.out), before, r.out);
      used := used + 1;
    }
  }
}
