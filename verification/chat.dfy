/**
 * Values shared by both versions of the TCP chat server: clients, messages,
 * input lines, the fixed server strings, the wire formats, and the
 * specification functions that say what a broadcast, a replay and a removal
 * do to the shared state.
 */
module Chat {
  import opened Strings

  /** The identity of a *Client pointer: stable, compared by identity, never reused. */
  type ClientId = nat

  datatype Option<T> = None | Some(value: T)

  /**
   * A time.Time as the server uses it: either the zero time, or a clock
   * reading, kept already formatted with the layout "2006-01-02 15:04:05".
   */
  datatype Time = Zero | At(stamp: string)

  datatype Message = Message(sender: string, text: string, time: Time)

  /**
   * The outcome of one bufio ReadString('\n') call: the bytes returned, whether
   * an error came with them, and the formatted clock reading taken right after
   * the read returned (every time.Now() up to the next read sees it).
   */
  datatype Line = Line(data: string, failed: bool, at: string)

  /**
   * What ReadString('\n') guarantees: a read without error returns the bytes
   * up to and including the line feed.
   */
  predicate WellFormed(line: Line) {
    !line.failed ==> |line.data| > 0 && line.data[|line.data| - 1] == '\n'
  }

  /**
   * On a well-formed line read without error, fewer than two characters
   * means exactly the lone line feed, which is also fewer than two bytes:
   * counting characters and counting bytes agree on the naming loop's
   * length test.
   */
  lemma ShortLine(line: Line)
    requires WellFormed(line) && !line.failed
    ensures |line.data| < 2 <==> line.data == "\n"
  {
    if |line.data| < 2 {
      assert line.data == [line.data[0]];
    }
  }

  /**
   * Where a connection handler is: choosing a name, admitted and chatting,
   * returned (connection closed), or the whole process has panicked.
   */
  datatype Phase = Naming | Active | Closed | Crashed

  const MaxClients: nat := 10
  const WelcomeMessage := "Welcome to TCP-Chat!\n"
  const EnterNamePrompt := "[ENTER YOUR NAME]: "
  const NameTakenMessage := "Name is already taken\n"
  const WrongNameMessage := "Wrong name\n"
  const ServerFullMessage := "Server is full, try again later.\n"
  const JoinChatMessage := " has joined our chat..."
  const LeaveChatMessage := " has left the chat..."
  /** What Go's time.Time{}.Format("2006-01-02 15:04:05") produces. */
  const ZeroStamp := "0001-01-01 00:00:00"

  function Stamp(t: Time): string {
    match t
    case Zero => ZeroStamp
    case At(s) => s
  }

  /** The re-prompt "[<time>][<name>]: ", with no line feed. */
  function Prompt(stamp: string, name: string): string {
    "[" + stamp + "][" + name + "]: "
  }

  function Heading(m: Message): string {
    "[" + Stamp(m.time) + "][" + m.sender + "]: " + m.text
  }

  /** What Broadcast writes for a message, before the recipient's own prompt. */
  function Wire(m: Message): string {
    "\n" + Heading(m) + "\n"
  }

  /** What a newly admitted client is sent for one message of the history. */
  function ReplayLine(m: Message): string {
    Heading(m) + "\n"
  }

  /** The writes that replay `h` to a newly admitted client, one per message, in history order. */
  function Transcript(h: seq<Message>): (t: seq<string>)
    ensures |t| == |h|
    ensures forall i :: 0 <= i < |h| ==> t[i] == ReplayLine(h[i])
  {
    if h == [] then [] else Transcript(h[..|h| - 1]) + [ReplayLine(h[|h| - 1])]
  }

  /** Nothing written to a connection is ever taken back: every output in `after` extends the one in `before`. */
  ghost predicate Extends(before: map<ClientId, seq<string>>, after: map<ClientId, seq<string>>) {
    forall d :: d in before ==> d in after && before[d] <= after[d]
  }

  lemma ExtendsTrans(a: map<ClientId, seq<string>>, b: map<ClientId, seq<string>>, c: map<ClientId, seq<string>>)
    requires Extends(a, b) && Extends(b, c)
    ensures Extends(a, c)
  {
    forall d | d in a ensures d in c && a[d] <= c[d] {
      assert a[d] == b[d][..|a[d]|] && b[d] == c[d][..|b[d]|];
    }
  }

  predicate Distinct(s: seq<ClientId>) {
    forall i, j :: 0 <= i < j < |s| ==> s[i] != s[j]
  }

  // ----- Removing a client by identity -----

  /** `s` with its first entry equal to `x` taken out. */
  function Without(s: seq<ClientId>, x: ClientId): seq<ClientId> {
    if s == [] then []
    else if s[0] == x then s[1..]
    else [s[0]] + Without(s[1..], x)
  }

  /**
   * Removal splices out exactly the first occurrence and keeps the order of
   * the rest; when `x` does not occur the list is unchanged.
   */
  lemma {:induction false} WithoutSplit(s: seq<ClientId>, x: ClientId, i: nat)
    requires i <= |s| && x !in s[..i] && (i < |s| ==> s[i] == x)
    ensures Without(s, x) == if i < |s| then s[..i] + s[i + 1..] else s
  {
    if s != [] && i > 0 {
      assert s[0] == s[..i][0];
      assert s[1..][..i - 1] == s[1..i];
      assert x !in s[1..][..i - 1];
      WithoutSplit(s[1..], x, i - 1);
      if i < |s| {
        assert s[..i] + s[i + 1..] == [s[0]] + (s[1..][..i - 1] + s[1..][i..]);
      }
    }
  }

  /** On a list without repeats, removal drops exactly `x` and keeps the list free of repeats. */
  lemma {:induction false} WithoutMembers(s: seq<ClientId>, x: ClientId)
    requires Distinct(s)
    ensures Distinct(Without(s, x))
    ensures forall y :: y in Without(s, x) <==> y in s && y != x
    ensures |Without(s, x)| == if x in s then |s| - 1 else |s|
  {
    if s != [] {
      assert Distinct(s[1..]) by {
        forall i, j | 0 <= i < j < |s[1..]| ensures s[1..][i] != s[1..][j] {
          assert s[1..][i] == s[i + 1] && s[1..][j] == s[j + 1];
        }
      }
      assert s == [s[0]] + s[1..];
      assert s[0] !in s[1..] by {
        forall k | 0 <= k < |s[1..]| ensures s[1..][k] != s[0] { assert s[1..][k] == s[k + 1]; }
      }
      if s[0] != x {
        WithoutMembers(s[1..], x);
        var w := Without(s[1..], x);
        assert Without(s, x) == [s[0]] + w;
        forall i, j | 0 <= i < j < |[s[0]] + w| ensures ([s[0]] + w)[i] != ([s[0]] + w)[j] {
          if i > 0 { assert ([s[0]] + w)[i] == w[i - 1]; }
          assert ([s[0]] + w)[j] == w[j - 1];
          assert w[j - 1] in w;
        }
      }
    }
  }

  // ----- Fan-out of one broadcast -----

  /**
   * The output of every client after a broadcast loop has walked `cs` in
   * order, writing `line` and the recipient's own prompt to each client
   * that is not the sender.
   */
  function Deliver(out: map<ClientId, seq<string>>, cs: seq<ClientId>, name: map<ClientId, string>,
                   sender: Option<ClientId>, line: string, now: string): (o: map<ClientId, seq<string>>)
    requires forall c :: c in cs ==> c in out && c in name
    ensures o.Keys == out.Keys
    decreases |cs|
  {
    if cs == [] then out
    else
      var c := cs[|cs| - 1];
      var o := Deliver(out, cs[..|cs| - 1], name, sender, line, now);
      if sender == Some(c) then o else o[c := o[c] + [line, Prompt(now, name[c])]]
  }

  /**
   * `after` is `before` where every client other than `skip` received `line`
   * followed by its own prompt if it is one of the recipients `cs`, and
   * nothing otherwise.
   */
  ghost predicate Delivered(before: map<ClientId, seq<string>>, after: map<ClientId, seq<string>>,
                            cs: seq<ClientId>, name: map<ClientId, string>,
                            skip: Option<ClientId>, line: string, now: string)
    requires forall c :: c in cs ==> c in name
  {
    && after.Keys == before.Keys
    && forall d :: d in before && skip != Some(d) ==>
         after[d] == if d in cs then before[d] + [line, Prompt(now, name[d])] else before[d]
  }

  /**
   * Writes to the skipped client `c` before and after a delivery do not
   * disturb what the delivery says about everybody else.
   */
  lemma DeliveredAround(b0: map<ClientId, seq<string>>, b1: map<ClientId, seq<string>>,
                        a1: map<ClientId, seq<string>>, a2: map<ClientId, seq<string>>,
                        cs: seq<ClientId>, name: map<ClientId, string>, c: ClientId, line: string, now: string)
    requires forall d :: d in cs ==> d in name
    requires Delivered(b1, a1, cs, name, Some(c), line, now)
    requires b1.Keys == b0.Keys && forall d :: d in b0 && d != c ==> b1[d] == b0[d]
    requires a2.Keys == a1.Keys && forall d :: d in a1 && d != c ==> a2[d] == a1[d]
    ensures Delivered(b0, a2, cs, name, Some(c), line, now)
  {
  }

  /** The sender's own output is never touched by a broadcast, whatever the recipient list. */
  lemma {:induction false} DeliverSkipsSender(out: map<ClientId, seq<string>>, cs: seq<ClientId>,
                                              name: map<ClientId, string>, c: ClientId, line: string, now: string)
    requires forall d :: d in cs ==> d in out && d in name
    requires c in out
    ensures Deliver(out, cs, name, Some(c), line, now)[c] == out[c]
    decreases |cs|
  {
    if cs != [] {
      DeliverSkipsSender(out, cs[..|cs| - 1], name, c, line, now);
    }
  }

  /**
   * On a recipient list without repeats, every client other than the sender
   * that is on the list receives the line and its own prompt exactly once,
   * and every other output is unchanged.
   */
  lemma {:induction false} DeliverAt(out: map<ClientId, seq<string>>, cs: seq<ClientId>,
                                     name: map<ClientId, string>, sender: Option<ClientId>, line: string, now: string)
    requires forall d :: d in cs ==> d in out && d in name
    requires Distinct(cs)
    ensures Delivered(out, Deliver(out, cs, name, sender, line, now), cs, name, sender, line, now)
    decreases |cs|
  {
    if cs != [] {
      var init := cs[..|cs| - 1];
      var c := cs[|cs| - 1];
      assert Distinct(init);
      assert c !in init;
      assert forall d :: d in cs <==> d in init || d == c;
      DeliverAt(out, init, name, sender, line, now);
    }
  }
}
