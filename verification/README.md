# net-cat chat server: a Dafny model of the shared chat state

net-cat is a TCP group-chat server written in Go. A client connects, picks a
display name, and then sends lines that are fanned out to every other
connected client. A new client first receives the whole chat history. The
server keeps a global list of connected clients, capped at ten, and a global
append-only message history.

The repository holds this design twice:

- `internal/server.go`, with its types and globals in `internal/model.go` and
  its constants in `internal/const.go`. Module `InternalServer` models it.
- `main.go`, the program `go run .` builds. Module `MainProgram` models it.
  It differs from `internal/server.go` in these ways:
  - It has no name-uniqueness check.
  - Its greeting has no banner (main.go:216-218).
  - Its join and leave texts start with a line feed (main.go:245, 272).
  - Its join notice has an empty Sender, which Broadcast fills in with the
    joining client's own name.
  - Its leave notice has an empty Sender, not `"SERVER"` (main.go:272).
  - Its replay does not log each line (internal/server.go:79 has no
    counterpart).
  - Its Broadcast has no nil check, so its RemoveClient panics (see
    Findings).

Shared parts:

- `Strings`: `TrimSpace`, restricted to ASCII white space.
- `Chat`: clients, messages, input lines, the fixed server strings and the
  wire formats. It also holds the specification functions for a broadcast
  (`Deliver`, `Delivered`), a history replay (`Transcript`) and a removal
  by identity (`Without`), with the lemmas about them.
- `ChatState`: a `Registry` class holding the Go globals (`clients`,
  `messages` as `history`). It also holds what belongs to each `*Client`:
  its `Name`, and everything written to its connection so far (`out`). Its
  methods are the loops both programs share.

How the Go constructs are modelled:

- A `*Client` pointer is a `ClientId`, compared by identity.
- Each `bufio` `WriteString` appends one string to that client's `out`
  sequence.
- Each `ReadString('\n')` is one `Line`. A `Line` holds the returned text,
  whether an error came with it, and a clock reading `at`. `at` is already
  formatted with the layout "2006-01-02 15:04:05". Every `time.Now()` up to
  the next read uses it.
- A read without error ends in a line feed (`Chat.WellFormed`). Go's
  `len(name)` counts bytes, while the model counts characters. On such a
  line the two agree on the `< 2` test: both hold exactly for the lone
  line feed (`Chat.ShortLine`).
- `HandleClient` keeps the shape of the Go function. It greets the client,
  then runs a naming loop with one `NameStep` per line read, then a message
  loop with one `ChatStep` per line read. The deferred `RemoveClient` runs
  inside the step that makes the handler return.
- When the input runs out, the handler is still blocked in a read.
- Each step is one atomic update of the shared state. A session's steps can
  interleave with other sessions' steps only at reads.
- A panic ends the process. `Registry.panicked` records it. Every `main.go`
  step requires it to be false, so once one handler has panicked, no
  session's step can run.

Invariants kept by every operation:

- `Registry.Valid`: the client list has no repeats, holds at most
  `MaxClients` (10) clients, and every stored message has a time.
- `DistinctNames`: no two connected clients share a name. Only the
  `internal` version keeps this.
- `NoBlankMessages`: no stored message has empty text.
- The history only grows, and so does every client's output (`Extends`).

## Model

| member | source | states |
|---|---|---|
| `Strings.TrimSpaceShape` | internal/server.go:92 | The result is a contiguous piece of the line. Everything cut off on either side is white space. The result neither starts nor ends with white space. |
| `Strings.TrimSpaceEmpty` | internal/server.go:92-95 | A line trims to the empty string exactly when it is all white space. These are the lines the message loop drops. |
| `Strings.TrimSpaceIdempotent` | internal/server.go:104 | Trimming an already trimmed name changes nothing. So `isNameTaken` compares a stored name with the trimmed candidate on equal terms. |
| `Chat.Transcript` | internal/server.go:75-80 | The replay of a history is one line per message, in history order. The line for message `i` is `"[time][sender]: text\n"`. |
| `Chat.ShortLine` | main.go:220-221 | On a line read without error, which ends in a line feed, "fewer than two characters" means exactly the lone line feed. So it also means fewer than two bytes, as `len` counts. |
| `Chat.WithoutSplit` | internal/server.go:115-120 | Removal by identity splices out exactly the first identical entry and keeps the order of the rest. If there is no such entry, the list is unchanged. |
| `Chat.WithoutMembers` | main.go:265-270 | On a list without repeats, removal takes out exactly the given client, at most one entry, and leaves a list without repeats. |
| `Chat.DeliverAt` | internal/server.go:24-30 | On a list without repeats, every listed client other than the sender gets the wire line and then its own prompt, exactly once. Every other output is unchanged. With no sender, every listed client gets them. |
| `Chat.DeliverSkipsSender` | main.go:202-208 | The sender's own output is never written by its broadcast, whatever the recipient list. |
| `ChatState.Registry.constructor` | internal/model.go:26-30 | The globals start empty: no clients, no history. All invariants hold. |
| `ChatState.Registry.Fanout` | internal/server.go:23-30 | The broadcast loop writes exactly what `Delivered` describes, and the sender's output is untouched. |
| `ChatState.Registry.Replay` | internal/server.go:75-80 | The new client's output grows by the transcript of the whole history. Nobody else's output changes. |
| `ChatState.Registry.IsNameTaken` | internal/server.go:99-108 | Read-only. True exactly when some connected client's name equals the trimmed line. |
| `ChatState.Registry.TryAdd` | internal/server.go:65-73 | The client is appended at the end exactly when fewer than 10 are connected. Otherwise the list is unchanged. So at most 10 are ever connected. |
| `ChatState.Registry.Remove` | internal/server.go:111-120 | The list becomes `Without(old list, c)`. `c` is no longer in it. Every other client is still in it. |
| `InternalServer.Broadcast` | internal/server.go:13-32 | Clients and names are unchanged. Exactly one message is appended to the history: Sender defaults to the sender's name when there is a sender, and Time to now. Every client except the sender gets the wire line and its own prompt. This holds also when nobody receives it. |
| `InternalServer.RemoveClient` | internal/server.go:111-126 | The first identical entry is removed. Then every remaining client receives `"SERVER"` / `name + " has left the chat..."`, and that notice is stored. |
| `InternalServer.Greet` | internal/server.go:47-50 | A new connection receives the welcome text, the banner with a line feed, and the name prompt. Nothing shared changes. |
| `InternalServer.RawLengthCheck` | internal/server.go:53-63 | The length test is on the raw line, line feed included. Every line of two or more characters read without error is refused exactly when its name is taken. If it is all white space, it trims to the empty name, so a blank line names the client `""` unless that name is in use. |
| `InternalServer.NameStep` | internal/server.go:52-63 | A line is refused exactly when its raw length is below 2, the read failed, or the trimmed name is taken. The reply is "Name is already taken" exactly when the name is taken, else "Wrong name", then the prompt, and nothing shared changes. An accepted line names the client by its trimmed text and goes on to admission. |
| `InternalServer.Admit` | internal/server.go:63-73 | The name is set. The client is admitted exactly when fewer than 10 are connected. Names stay unique, because the name was checked free. |
| `InternalServer.TurnAway` | internal/server.go:68-70 | A refused client gets "Server is full, try again later.", and the list is unchanged. The deferred RemoveClient (line 37) still stores a leave notice and sends it to every connected client. |
| `InternalServer.Welcome` | internal/server.go:75-82 | The admitted client gets the whole prior history in order, then its prompt, and not its own join notice. Every other client gets `"SERVER"` / `name + " has joined our chat..."`, and that notice is stored. |
| `InternalServer.ChatStep` | internal/server.go:84-96 | A read error removes the client and sends the leave notice to everyone left. A line that trims to empty stores and sends nothing, and only re-prompts. Any other line is stored with Sender set to the client's name and sent to everyone but the client. |
| `InternalServer.HandleClient` | internal/server.go:35-97 | The invariants are preserved, including unique names and at most 10 clients. The client is connected exactly while Active. No other client's membership changes. History and outputs only grow. While naming, nothing shared changes and every line read was refused. |
| `MainProgram.Broadcast` | main.go:193-210 | It sets `panicked` exactly when the Sender is empty and there is no sender, and then writes and stores nothing. Otherwise it excludes only the sender, fills Sender and Time, and appends exactly one message after the fan-out. |
| `MainProgram.RemoveClient` | main.go:261-273 | The first identical entry is spliced out. The leave broadcast always panics: `panicked` is set, and nothing is sent or stored. |
| `MainProgram.RemoveClientGuarded` | main.go:272 | With the nil check of internal/server.go:14, the leave notice, Sender still empty, reaches every remaining client and is stored, and the process stays up. |
| `MainProgram.Greet` | main.go:216-218 | A new connection receives the welcome text and the name prompt. |
| `MainProgram.NameStep` | main.go:220-227 | A line is refused, with "Wrong name" and the prompt, exactly when its raw length is below 2 or the read failed. Names in use are not looked at, so duplicates are admitted. The process panics exactly when the step ends Crashed. |
| `MainProgram.Admit` | main.go:229-237 | If 10 clients are connected, the client gets "Server is full, try again later.", the list is unchanged, and the deferred RemoveClient panics (`panicked` is set). Otherwise the client is appended and the process stays up. |
| `MainProgram.TurnAway` | main.go:230-234 | A refused client gets "Server is full, try again later.", the list, names and history are unchanged, and nothing else is written: the deferred RemoveClient (line 214) splices nothing and panics before its broadcast. |
| `MainProgram.Welcome` | main.go:239-245 | Replay of the whole history in order, then the prompt. The join notice `"\n" + name + " has joined our chat..."` is sent to everyone but the joiner and stored with the joiner's name as Sender. |
| `MainProgram.ChatStep` | main.go:246-258 | A read error removes the client and panics (`panicked` is set exactly then). Blank lines are never sent or stored. Other lines are stored with Sender set to the client's name and sent to everyone but the client. |
| `MainProgram.Post` | main.go:247-257 | For a line read without error, the process stays up. A line that trims to empty is never sent or stored, and the client is only re-prompted. Any other line is stored with Sender set to the client's name and sent to everyone but the client, and the client is then re-prompted. |
| `MainProgram.HandleClient` | main.go:212-259 | The invariants are preserved, and outputs and history only grow. A handler that does not end blocked on a read ends with the process crashed: `panicked` is set exactly when the result is Crashed. Every step requires the process to be alive. |

## Left out

- Listening, the accept loop and argument handling (main.go:275-305, app/run.go). A new connection is a fresh `ClientId` given to `HandleClient`.
- Reading the banner file and the `log.Fatal` on failure (internal/server.go:42-45, 128-141). The banner text is a parameter.
- Console and log output (`fmt.Println`, `log.Println`), `Flush`, and write errors, which the source ignores.
- `Conn.Close`: closing the connection is not modelled.
- The clock: formatted times are opaque strings carried by each line read. The layout and the calendar are not modelled.
- `strings.TrimSpace` on non-ASCII white space (U+0085, U+00A0 and the other Unicode spaces).
- The mutex and the goroutines. Races are not modelled. In particular:
  - `Broadcast` and the replay read `clients` and `messages` without the lock.
  - The name check and the append are not atomic.
  - `RemoveClient` broadcasts while holding the lock.
  - The in-place `append(clients[:i], clients[i+1:]...)` rewrites a backing array that others may be reading.
- Input is finite. When a read error comes back during naming, the Go loop re-prompts forever. The model writes one re-prompt per failed line it is given, and stops when the lines run out.
- `InternalServer.HandleClient`: states the invariants, the phase and the growth of history and outputs, not the exact output of a whole session. The exact effect of each line is stated by `NameStep` and `ChatStep`.
- `MainProgram.HandleClient`: the same, for the `main.go` variant.
- `MainProgram.HandleClient`: uses `RemoveClient` as written, so every session that ends crashes the process. The guarded version is modelled separately.

## Findings

| source | as written | input that shows it | evidently intended | confidence | as-written member | corrected member |
|---|---|---|---|---|---|---|
| main.go:194-196, main.go:272 | `RemoveClient` calls `Broadcast` with a nil sender and an empty Sender. `Broadcast` then reads `sender.Name`, a nil pointer dereference, and the panic ends the whole server. | Any admitted client whose connection read fails, or any named client turned away because ten are connected. | The leave notice reaches every remaining client and is stored. internal/server.go:14 adds exactly that nil check. | high, not executed | `MainProgram.RemoveClient` | `MainProgram.RemoveClientGuarded` |
