# ngrok_start_bot — a Dafny model of its core

The bot is a Telegram bot that exposes a local service to the internet by
starting and stopping an `ngrok` child process. This project models the
sequential logic under its I/O:

- **the supervisor** (`src/ngrok.rs`): the single kill-channel slot of
  `Ngrok`, with `new`, `start`, `kill` and `is_run` forming an Idle/Running
  machine; the argument list handed to `ngrok`; and the decision taken on the
  reply of ngrok's local status API in `fetch_url`;
- **the access gates** (`src/access.rs`): the chat allow-list and the
  per-profile user allow-list;
- **the command replies** (`src/cmds.rs`): the per-user profile menu with its
  two special replies, the idempotent `/killngrok`, `/start`, `/help` and the
  unknown-command reply;
- **the callback payload and menus** (`src/keyboard.rs`): the JSON payload
  `{"type":"Ngrok","cmd_idx":n}` and its parse, the profile menu and the
  startup keyboard;
- **the dispatch decisions** (`src/main.rs`): the chat gate on messages, the
  bounds check and access re-check of a menu selection, the
  start-then-discover sequence that kills the child on any failure, and the
  `.` → `\.` escaping of the final text.

Files: `wrappers.dfy` (Option, Result), `decimal.dfy` (decimal numerals),
`config.dfy` (the `NgrokCmd` and `Config` records of `src/config.rs`),
`access.dfy`, `responds.dfy` (names of the fixed replies), `tunnel.dfy`
(`src/ngrok.rs`), `keyboard.dfy`, `cmds.dfy`, `bot.dfy` (`src/main.rs`).

The supervisor is a class. Its field `killChannel` is the slot. Each sender
is an object `KillSender` whose `fired` flag records that the receiving end
has completed. The supervising task then kills the child. A ghost set
`spawned` holds every sender ever stored. The invariant `Valid()` says that
every spawned child except the one in the slot has been told to stop. From
it, `AtMostOneLiveChild` proves that at most one spawned child has not been
told to stop, and that `is_run` holds exactly when one has not. This is a
statement about kill signals, not about processes: a signalled child is
killed later by its supervising task, so for a moment two `ngrok`
processes can be alive at once.

Outcomes the bot cannot compute itself are parameters:

- `spawn: seq<string> -> bool` says whether the OS starts `ngrok` with the given arguments;
- `ApiReply` is the HTTP reply of the status API: a transport failure, or the deserialised body;
- `parseUrl: string -> Option<string>` stands for URL parsing;
- `Templates` holds the two message templates of the `responds` module, as functions.

The texts of the `responds` module are not part of this model. Its fixed
replies appear as the symbolic `Responds.Notice`.

Behaviour of the code worth knowing:

- **`kill` empties the slot at once.** `take()` (`src/ngrok.rs:73`) clears it immediately, while the child is terminated later by its supervising task (`src/ngrok.rs:52-53`). So `is_run` is false straight after `kill`.
- **The chat allow-list guards only messages.** `chat_access_filter` sits on the message branch (`src/main.rs:77-81`). Callback queries go straight to `button_query_parser` and are checked only against the profile's user list (`src/main.rs:83-88`). `Bot.HandleCallback` accordingly takes no chat.
- **A child that exits on its own leaves the slot full.** `is_run` then stays true, and the next `/killngrok` answers "Ngrok killed!".
- **`start` called without `kill_on_start` on a running supervisor still ends the old child.** A successful spawn overwrites the slot. That drops the old sender, and a dropped sender completes the receiver just as a sent value does (`src/ngrok.rs:45`, `:52`). The model marks the old sender as fired.
- **`start` takes no domain at the dispatch call site.** `src/main.rs:230` calls `start` with three arguments, but `src/ngrok.rs:20-26` declares four, including `domain`. `NgrokCmd` has no domain field either. The model keeps `domain` as a parameter of `Start` and `ArgumentList`, and the dispatch passes `None`.

## Model

| member | source | states |
|---|---|---|
| `Decimal.NatToString` | src/ngrok.rs:157 | the decimal rendering of a port or index is a non-empty string of digits with no redundant leading zero |
| `Decimal.ParseNatToString` | src/keyboard.rs:14-21 | reading an unsigned JSON integer back from its rendering gives the same number |
| `Decimal.NatToStringOfParse` | src/keyboard.rs:14-21 | an accepted numeral is exactly the rendering of the number read from it |
| `Access.CheckUserAccess` | src/access.rs:10-17 | `Granted` exactly when the user id is in the profile's own `permitted_users`, `Declined` otherwise |
| `Access.CheckChatAccess` | src/access.rs:19-26 | `Granted` exactly when the chat id is in `permitted_chats`, `Declined` otherwise |
| `Access.EmptyAllowListsDecline` | src/access.rs:10-26 | an empty allow-list declines every user and every chat |
| `Access.DecisionsDependOnlyOnMembership` | src/access.rs:10-26 | reordering an allow-list or repeating ids in it changes no decision |
| `Tunnel.ArgumentList` | src/ngrok.rs:142-160 | connection type first, port numeral last; `--domain d` sits right before the port exactly when a domain is given and the type is `http`; 4 arguments then, 2 otherwise |
| `Tunnel.Ngrok.CollectArgs` | src/ngrok.rs:142-160 | the pushes build exactly `ArgumentList` |
| `Tunnel.FirstTunnelUrl` | src/ngrok.rs:118-135 | malformed JSON gives "Can't parse ngrok API response"; no tunnels gives "Error: no tunnels were returned by Ngrok"; otherwise success exactly when the first tunnel's URL parses, with that URL, and "Bad URL returned from API" when it does not |
| `Tunnel.OnlyFirstTunnelCounts` | src/ngrok.rs:120-129 | tunnel lists that agree on their first entry give the same outcome |
| `Tunnel.DiscoveryOutcome` | src/ngrok.rs:96-135 | a transport failure is reported with its own description; for a received body, exactly the outcome of the first tunnel (its parsed URL or that step's error text); success exactly when the body is read and its first tunnel's URL parses |
| `Tunnel.Ngrok.constructor` | src/ngrok.rs:14-18 | a new supervisor is idle, with no child spawned |
| `Tunnel.Ngrok.IsRun` | src/ngrok.rs:80-82 | true exactly when the slot holds a sender |
| `Tunnel.Ngrok.AtMostOneLiveChild` | src/ngrok.rs:80-82 | `is_run` holds exactly when some spawned child has not been told to stop, and there is never more than one such child |
| `Tunnel.Ngrok.Kill` | src/ngrok.rs:71-78 | afterwards the slot is empty; a held sender has been signalled; on an empty slot nothing changes |
| `Tunnel.Ngrok.Start` | src/ngrok.rs:20-69 | with `kill_on_start` a running child is signalled first; a successful spawn stores exactly one fresh sender, ends any previous child and returns "Start {type} connection on {port} port"; a failed spawn returns "Failed to start …" and stores nothing, leaving the slot as the optional kill left it |
| `Tunnel.Ngrok.FetchUrl` | src/ngrok.rs:84-136 | an idle supervisor answers "Ngrok was not started!" without consulting the API; a running one gives the discovery outcome of the reply |
| `Keyboard.Encode` | src/keyboard.rs:8-12 | the payload of a query is the JSON object tagged `"type":"Ngrok"` with its `cmd_idx` |
| `Keyboard.TryFrom` | src/keyboard.rs:14-21 | every refusal is `BAD_INLINE_DATA_TYPE` |
| `Keyboard.TryFromEncode` | src/keyboard.rs:14-30 | every query survives the trip through its payload |
| `Keyboard.EncodeTryFrom` | src/keyboard.rs:14-21 | a payload is accepted only when it is exactly the encoding of the query read from it |
| `Keyboard.MakeNgrokCmdKeyboard` | src/keyboard.rs:23-36 | one row per (index, profile) pair in input order, one button per row labelled with the profile's description, whose payload reads back as that pair's configuration index |
| `Keyboard.MakeStartupKeyboard` | src/keyboard.rs:38-44 | a single resizable row: `/ngrok`, then `/killngrok` |
| `Cmds.GatherCommandsAsStr` | src/cmds.rs:13-36 | the command names in declaration order, joined by `", "`: `/start, /ngrok, /killngrok, /help` |
| `Cmds.StartCmd` | src/cmds.rs:44-49 | always a reply with the startup keyboard, whose buttons are all bot commands |
| `Cmds.AllowedFrom` | src/cmds.rs:53-62 | from a given position on, exactly the granted profiles paired with their configuration index, in increasing index order |
| `Cmds.AllowedCmds` | src/cmds.rs:53-62 | exactly the (index, profile) pairs the user is granted, original indices kept, in configuration order |
| `Cmds.ListNgrokCmd` | src/cmds.rs:51-81 | an unknown sender gets the "don't speak to strangers" text; a sender granted nothing gets "No commands for you, pal…"; otherwise a menu built from exactly the allowed pairs |
| `Cmds.MenuOfSingleProfile` | src/cmds.rs:51-74 | a user listed for one profile only sees a one-button menu whose button selects that profile's index |
| `Cmds.KillNgrokCmd` | src/cmds.rs:83-94 | on a running supervisor: kills, replies "Ngrok killed!", and the supervisor is idle; on an idle one: replies "Ngrok actually dead…" and changes nothing |
| `Cmds.KillNgrokTwice` | src/cmds.rs:83-94 | a second `/killngrok` always finds the tunnel dead |
| `Cmds.HelpCmd` | src/cmds.rs:96-102 | the help text embeds the command list `/start, /ngrok, /killngrok, /help` |
| `Cmds.ErrorCmd` | src/cmds.rs:104-112 | the unknown-command text embeds the same command list |
| `Bot.ChatAccessFilter` | src/main.rs:91-105 | passes exactly when the chat is permitted; otherwise stops with the one `BAD_CHAT_ID` notice |
| `Bot.ButtonQueryParser` | src/main.rs:153-180 | no payload gives `BUTTON_HANDLER_MISSED`; an unreadable one `BAD_INLINE_DATA_TYPE`; index `i` gives `ngrok_cmds[i]` when in bounds and `BAD_OPTION_SELECTED` otherwise; a profile is produced only for a well-formed in-bounds payload |
| `Bot.MenuButtonSelectsItsProfile` | src/main.rs:165-173 | the button of a menu row resolves to exactly the profile that row was built from |
| `Bot.ButtonAccessFilter` | src/main.rs:182-202 | passes exactly when the user is in the selected profile's allow-list; otherwise stops with one notice naming the profile's description |
| `Bot.StartOutcome` | src/main.rs:229-261 | success exactly when the spawn succeeds and discovery finds a URL; a failed spawn yields the spawn error text; a successful spawn followed by a failed discovery yields the API-connection template filled with the discovery error; success text built from the start report, the URL and the howto, or the default "Nothing special, just use it" |
| `Bot.StartNgrok` | src/main.rs:229-261 | always stops a running tunnel first; the answer is the outcome's text; afterwards a tunnel runs exactly when the outcome is a success, and then it is the child spawned by this call; a failed spawn adds no child; a successful spawn adds exactly one fresh child, which has been told to stop when discovery then fails |
| `Bot.EscapeDots` | src/main.rs:214 | the length grows by the number of dots; no dot is left without a backslash in front; text without dots is unchanged |
| `Bot.UnescapeEscapeDots` | src/main.rs:214 | escaping loses nothing: every other character is kept, so undoing the escape gives the text back |
| `Bot.HandleCallback` | src/main.rs:153-220 | a payload that does not resolve, or a user not permitted, yields one notice and leaves the supervisor untouched; otherwise the message is edited into the escaped start outcome, the running tunnel has been told to stop, and the spawned child is accounted for as in `Bot.StartNgrok` |
| `Bot.HandleMessage` | src/main.rs:69-135 | a message from a chat not permitted gets only `BAD_CHAT_ID` and changes nothing; otherwise each command gets its handler's reply; `/killngrok` leaves no tunnel running, tells the running child to stop and spawns nothing |
| `Bot.SelectionStartsTunnel` | src/main.rs:153-261 | a permitted user selecting a `tcp` profile on port 22, whose tunnel URL names its port, gets the success text with the discovered URL and the default howto |

## Left out

- Process spawning, the `ngrok -v` version probe (`_bump_version`), and the supervising task's race between the child exiting and the kill signal. These are OS calls and concurrency. The spawn outcome is a parameter, and a kill only marks the sender fired.
- The child exiting on its own. The source never clears the slot then, and the model has no event for it.
- The `Mutex` around the slot. The model is sequential: every operation runs alone.
- The HTTP request to `localhost:4040` with its 1 s timeout, and reading the body. A transport failure enters as `ApiReply.Unreachable` with its description.
- The internals of serde_json and of `Url::parse`. URL parsing is the `parseUrl` parameter, and the API body enters already deserialised.
- `Keyboard.TryFrom`: accepts only the compact form serde_json writes (`{"type":"Ngrok","cmd_idx":n}`). serde_json also accepts whitespace, reordered keys and unknown extra fields, and the model refuses them.
- The message templates of the `responds` module (not part of this model) and their `formatx!` substitution. The `unwrap`s on the template and on `host_str` are not modelled.
- Bot.StartOutcome: shows the intended success reply. The code at `src/main.rs:244` calls `url.port().unwrap()`, and `Url::port()` is `None` whenever the URL uses its scheme's default port. So for every `https://` tunnel URL, which is what every `http` profile gets, the code panics after spawning. It then never edits the message and never reaches the `kill` at `src/main.rs:256-260`, so the child keeps running. The model has no URL ports and no panics.
- Bot.StartNgrok and Bot.HandleCallback: inherit this. On the success path they give the reply the code intends, and the code gives it only for tunnel URLs with an explicit port.
- Bot.SelectionStartsTunnel: uses a `tcp` profile whose URL `tcp://0.tcp.ngrok.io:12345` names its port, the case in which the code does reach the success reply. The same scenario with an `https://` URL would panic in the code.
- Telegram I/O: sending replies, editing the menu message, and the case where a callback carries no message to reply to or edit. Handlers return what they would send.
- Command-text parsing by the bot framework. `Bot.HandleMessage` receives the command already recognised.
- The 500 ms pause before discovery, and all logging.
- `config::load`: reading and parsing `config.yaml`.
- `usize` is taken as 64 bits wide.
