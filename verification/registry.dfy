/**
 * The process-wide chat state: the global `clients` list and `messages`
 * history of both server versions, together with what belongs to each
 * *Client (its Name, and what has been written to its connection), and the
 * loops over that state that both versions share.
 */
module ChatState {
  import opened Strings
  import opened Chat

  class Registry {
    /** The connected clients, in admission order; compared by identity. */
    var clients: seq<ClientId>
    /** Client.Name of every client that has a handler. */
    var name: map<ClientId, string>
    /** The chat history, in broadcast order. */
    var history: seq<Message>
    /** Everything written to each connection so far, one entry per WriteString. */
    var out: map<ClientId, seq<string>>
    /** Whether some handler has panicked, which ends the whole process and every session in it. */
    var panicked: bool

    ghost predicate Valid()
      reads this
    {
      && Distinct(clients)
      && (forall c :: c in clients ==> c in name && c in out)
      && |clients| <= MaxClients
      && (forall m :: m in history ==> m.time.At?)
    }

    /** No two connected clients share a name. */
    ghost predicate DistinctNames()
      reads this
      requires Valid()
    {
      forall a, b :: a in clients && b in clients && a != b ==> name[a] != name[b]
    }

    /** Whether some connected client is called TrimSpace(line). */
    ghost predicate NameTaken(line: string)
      reads this
      requires Valid()
    {
      exists c :: c in clients && name[c] == TrimSpace(line)
    }

    /** No stored message has empty text. */
    ghost predicate NoBlankMessages()
      reads this
    {
      forall m :: m in history ==> m.text != ""
    }

    constructor ()
      ensures Valid() && DistinctNames() && NoBlankMessages()
      ensures clients == [] && name == map[] && history == [] && out == map[] && !panicked
    {
      clients, name, history, out, panicked := [], map[], [], map[], false;
    }

    /** A freshly accepted connection, with nothing written to it yet. */
    method Connect(c: ClientId)
      requires Valid() && c !in out
      modifies this`out
      ensures Valid()
      ensures out == old(out)[c := []]
    {
      out := out[c := []];
    }

    /** One WriteString on client `c`'s connection. */
    method Write(c: ClientId, s: string)
      requires Valid() && c in out
      modifies this`out
      ensures Valid()
      ensures out == old(out)[c := old(out[c]) + [s]]
    {
      out := out[c := out[c] + [s]];
    }

    /**
     * The loop of Broadcast: every connected client that is not the sender
     * gets `line` and then its own prompt; nobody else gets anything.
     */
    method Fanout(line: string, sender: Option<ClientId>, now: string)
      requires Valid()
      modifies this`out
      ensures Valid()
      ensures out == Deliver(old(out), clients, name, sender, line, now)
      ensures Delivered(old(out), out, clients, name, sender, line, now)
      ensures sender.Some? && sender.value in old(out) ==> out[sender.value] == old(out[sender.value])
    {
      var i := 0;
      while i < |clients|
        invariant 0 <= i <= |clients|
        invariant out == Deliver(old(out), clients[..i], name, sender, line, now)
        invariant out.Keys == old(out).Keys
      {
        var c := clients[i];
        assert clients[..i + 1] == clients[..i] + [c];
        if sender != Some(c) {
          out := out[c := out[c] + [line, Prompt(now, name[c])]];
        }
        i := i + 1;
      }
      assert clients[..i] == clients;
      DeliverAt(old(out), clients, name, sender, line, now);
      if sender.Some? && sender.value in old(out) {
        DeliverSkipsSender(old(out), clients, name, sender.value, line, now);
      }
    }

    /** Replays the whole history to `c`, one formatted line per message, oldest first. */
    method Replay(c: ClientId)
      requires Valid() && c in out
      modifies this`out
      ensures Valid()
      ensures out == old(out)[c := old(out[c]) + Transcript(history)]
    {
      var i := 0;
      assert Transcript(history[..0]) == [];
      assert out[c] + [] == out[c];
      assert out[c := out[c]] == out;
      while i < |history|
        invariant 0 <= i <= |history|
        invariant out == old(out)[c := old(out[c]) + Transcript(history[..i])]
      {
        assert history[..i + 1][..i] == history[..i];
        assert Transcript(history[..i + 1]) == Transcript(history[..i]) + [ReplayLine(history[i])];
        out := out[c := out[c] + [ReplayLine(history[i])]];
        assert out[c] == old(out[c]) + Transcript(history[..i + 1]);
        assert out == old(out)[c := out[c]];
        i := i + 1;
      }
      assert history[..i] == history;
    }

    /** isNameTaken: a read-only scan for a client called TrimSpace(line). */
    method IsNameTaken(line: string) returns (taken: bool)
      requires Valid()
      ensures taken == NameTaken(line)
    {
      var i := 0;
      while i < |clients|
        invariant 0 <= i <= |clients|
        invariant forall k :: 0 <= k < i ==> name[clients[k]] != TrimSpace(line)
      {
        if name[clients[i]] == TrimSpace(line) {
          return true;
        }
        i := i + 1;
      }
      return false;
    }

    /** The capacity-checked append: `c` joins at the end unless the server is full. */
    method TryAdd(c: ClientId) returns (added: bool)
      requires Valid() && c !in clients && c in name && c in out
      modifies this`clients
      ensures Valid()
      ensures added == (|old(clients)| < MaxClients)
      ensures clients == if added then old(clients) + [c] else old(clients)
    {
      if |clients| >= MaxClients {
        return false;
      }
      clients := clients + [c];
      return true;
    }

    /** RemoveClient's loop: splices out the first entry identical to `c`, if any. */
    method Remove(c: ClientId)
      requires Valid()
      modifies this`clients
      ensures Valid()
      ensures clients == Without(old(clients), c)
      ensures c !in clients
      ensures forall d :: d in clients <==> d in old(clients) && d != c
    {
      var i := 0;
      while i < |clients| && clients[i] != c
        invariant 0 <= i <= |clients|
        invariant c !in clients[..i]
      {
        assert clients[..i + 1] == clients[..i] + [clients[i]];
        i := i + 1;
      }
      WithoutSplit(clients, c, i);
      WithoutMembers(clients, c);
      if i < |clients| {
        clients := clients[..i] + clients[i + 1..];
      }
    }
  }
}
