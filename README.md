# net-cat session coordinator, modelled in Dafny

net-cat is a line-oriented chat relay. Clients connect over TCP, give a display
name, and every non-blank line they send is broadcast to everyone connected.
Newcomers get the whole history replayed first. This project models the
coordinator at its centre and proves properties of it:

- the roster, a map from connection to client;
- the append-only history;
- one outbound queue per client;
- the three handlers (join, leave, message) that the event loop applies one at a time.

It also models the small decisions around the coordinator: the name handshake
and line formatting done for each connection, the choice of port from the
command line, and the admission test made when a connection is accepted.

Files and modules:

- `text.dfy` (`Text`): `Option`, and a model of Go's `strings.TrimSpace`.
- `server.dfy` (`Coordinator`): `Client`, a class whose `queue` and `closed`
  fields stand in for the Go channel. `Server`, a class with `clients` and
  `history` fields and the handlers as methods. `Run`, one step of the event loop.
- `connection.dfy` (`Connection`): the handshake and per-line rules of
  `handleConnection`, a parser for chat messages that undoes their formatting,
  and `Session`, the loop that turns the lines read into the events submitted.
- `launch.dfy` (`Launch`): the port decision and the admission test in `main`.
- `scenarios.dfy` (`Scenarios`): several coordinator steps in a row. They
  cover join then leave, a repeated leave, a late joiner, and a chat with a
  limit of two.

Each handler holds the mutex for its whole run, and `Run` takes one event at a
time. So each event is an atomic step on plain data. `Run` takes the chosen
event as a parameter, and the order of events is the caller's choice.

A send on a closed Go channel panics, and so does a second close. In the model,
`Client.Send` and `Client.Close` therefore require an open queue. `Server.Valid()`
says that every roster entry is filed under its own connection and has an open
queue. Every handler verifies against these preconditions, which proves that
no handler ever sends to or closes a closed queue.

Three points of the code's behaviour that the model keeps as written:

- `handleJoin` does not check whether the connection is already present: it
  overwrites any entry under the same connection. `HandleJoin` models the
  overwrite, and the displaced entry's queue is left untouched.
- A send on a closed channel would panic. The model proves it never happens.
- `handleLeave` checks only that the connection is in the roster, not that the
  entry is the same client. `HandleLeave` models exactly that check.

## Model

| member | source | states |
|---|---|---|
| `Text.TrimSpace` | handlers.go:78 | the trimmed name or line is the infix of the input that starts after its leading white space; only white space is cut off at either end; it is empty exactly when the input is blank; otherwise it neither starts nor ends with white space |
| `Text.TrimSpaceIdempotent` | handlers.go:102 | trimming an already trimmed line changes nothing |
| `Connection.Greet` | handlers.go:66-83 | the handshake drops the connection when the banner write or the name read fails; it refuses a blank name with "Name cannot be empty. Bye.\n"; otherwise it accepts the trimmed name, which is non-empty and has no white space at either end |
| `Connection.ChatLine` | handlers.go:102-108 | a line yields no message exactly when it is blank after trimming; otherwise it yields "[" + stamp + "][" + name + "]:" + trimmed text + "\n" |
| `Connection.FormatParseRoundTrip` | handlers.go:108 | parsing a formatted message gives back its stamp, sender and text, provided the stamp and the sender contain no ']' |
| `Connection.ChatMessagesCount` | handlers.go:93-110 | a member's session submits exactly one message per non-blank line read, and none for blank lines |
| `Connection.ChatMessagesFromLines` | handlers.go:102-109 | whatever the member's name, every message it submits is one of its non-blank lines read, trimmed and formatted as "[" + that line's stamp + "][" + name + "]:" + text + "\n" |
| `Connection.ChatMessagesWellFormed` | handlers.go:102-109 | for a member whose name holds no ']', every message it submits parses back with that member's name as sender and a non-empty text that is already trimmed |
| `Connection.SessionBracketed` | handlers.go:85-112 | a connection submits nothing unless the handshake accepts its name; otherwise it submits one join first, one leave last, and only messages in between, one per non-blank line |
| `Connection.Session` | handlers.go:63-113 | the read loop's output is the handshake outcome and, in order, the join, the formatted non-blank lines and the leave, as `Submissions` defines them |
| `Coordinator.NoticesDiffer` | handlers.go:46 | the leave notice "<name> has left our chat...\n" never equals a join notice "<name> has joined our chat...\n" (handlers.go:26), whatever the two names |
| `Coordinator.Client.constructor` | handlers.go:85-89 | a new client keeps its connection and name and starts with an open, empty queue |
| `Coordinator.Client.Send` | handlers.go:23 | a send requires an open queue and appends exactly the message to it |
| `Coordinator.Client.Close` | handlers.go:43 | a close requires an open queue; it closes the queue and leaves its contents unchanged |
| `Coordinator.Server.constructor` | server.go:19-27 | a new server has an empty roster and an empty history |
| `Coordinator.Server.ClientCount` | server.go:42-46 | returns the number of roster entries and changes nothing |
| `Coordinator.Server.Fanout` | handlers.go:27-31 | the range-over-roster loop appends the message once to every member's queue except the skipped client's, whatever the visiting order; the roster stays valid |
| `Coordinator.Server.HandleJoin` | handlers.go:15-32 | the client is filed under its connection and the history is unchanged. The client's queue receives the whole history in order. Every other member receives exactly one join notice and the client receives none. No other queue changes |
| `Coordinator.Server.HandleLeave` | handlers.go:34-50 | for a connection not in the roster, nothing changes. Otherwise the entry is removed and the client's queue is closed. Every remaining member receives exactly one leave notice, and the client is no longer a member. The history is unchanged |
| `Coordinator.Server.HandleMessage` | handlers.go:52-61 | the roster is unchanged. The message is appended once to the history and once to every member's queue, the sender's included |
| `Coordinator.Server.Run` | server.go:29-40 | one step handles exactly one event: a join gets the join effect, a leave gets the leave effect, and a message gets the broadcast effect. A join or leave step changes no other client filed under the same connection |
| `Launch.ChoosePort` | main.go:13-21 | no argument means port "8989"; one argument is itself the port; more than one means the usage text is printed and nothing listens |
| `Launch.Admit` | main.go:41-45 | a connection is refused with "Chat is full, try again later.\n" exactly when the member count has reached the limit |
| `Launch.AdmitConnection` | main.go:41-47 | the accept-time check reads the coordinator's member count without changing it, and refuses exactly when the roster has at least `maxClients` entries |
| `Scenarios.JoinThenLeave` | handlers.go:15-50 | a join followed directly by its leave restores the roster and the history. Each other member sees the join notice, then the leave notice, and the two notices differ. The visitor received the full history and ends closed |
| `Scenarios.LeaveTwice` | handlers.go:38-40 | reporting a departure twice delivers the leave notice at most once; the second report changes nothing |
| `Scenarios.LateJoinerSeesHistory` | handlers.go:22-29 | A joins and says something, then B joins. B receives A's message from the history and no notice about itself. A receives its own message, then B's join notice |
| `Scenarios.CapacityOfTwo` | main.go:41-45 | with a limit of two and two members, a third connection is refused. A's message reaches both members. When B leaves, only A is told |
| `Scenarios.SayThenLeave` | handlers.go:42-60 | with members A and B, a message reaches both. B's leave then removes B, closes B's queue, and tells only A |

## Left out

- Goroutines, `sync.Mutex` and `select`: each handler runs whole under the
  lock, so an event is modelled as one atomic method call. Which event
  comes next is the caller's choice.
- The blocking of unbuffered channels: queues are unbounded sequences with a
  closed flag. In the code, `clientWriter` returns on its first write error
  (client.go:18-20); the next send to that client (handlers.go:23, 29, 48, 59)
  then blocks for ever while the mutex is held, which freezes every handler and
  `clientCount` (server.go:43), and so the accept loop too. `Joined`, `Left`
  and `Broadcast` ("every member receives the message") therefore assume that
  every writer is still draining its queue.
- `clientWriter` and every transport action: writes, reads, `conn.Close`, `log`
  output, the "Listening on the port" line and the welcome banner text. Whether
  the banner write and the name read succeeded are parameters of the handshake.
- `time.Now().Format`: the time stamp of each line read is a parameter.
- Connection.ChatMessagesWellFormed: stated only for names without ']'. The
  handshake accepts any non-blank name, but for a name such as "a]b" the
  message format is ambiguous and does not parse back. For every name,
  `Connection.ChatMessagesFromLines` states what each message is.
- Connection.Session: `lines` holds the complete lines read before the first read error or end of input. A final partial line that ends at end of input is discarded by the code and is therefore not in `lines`.
- Text.TrimSpace: only the Latin-1 white space of Go's `unicode.IsSpace` is
  modelled (tab, line feed, vertical tab, form feed, carriage return, space,
  U+0085, U+00A0). The other Unicode white-space characters and UTF-8 decoding
  are not.
- The listener and the accept loop (main.go:23-39, 47).
- The values of `maxClients`, `usage` and `welcomeBanner` are defined outside
  the modelled files; the model takes them as parameters.
- There is no invariant that the roster stays within `maxClients`. The check
  runs before the handshake, so several pending connections can all pass it,
  and the code does not guarantee that bound.
- A submission names only the joining member's display name. Building the
  `Client` object that goes into the coordinator's `Join` event is left to the caller.
