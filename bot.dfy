/**
 * The dispatch decisions of the bot: the chat gate on messages, the
 * resolution and re-check of a menu selection, the start-then-discover
 * sequence with its clean-up kill, and the escaping of the final text.
 * Sending and editing Telegram messages are outside the model: each handler
 * returns what it would send.
 */
module Bot {
  import opened Wrappers
  import opened Config
  import opened Access
  import opened Responds
  import opened Keyboard
  import opened Cmds
  import Tunnel
  import Decimal

  /** A filter's verdict: let the update through, or stop it with the one notice it sends. */
  datatype Gate = Pass | Stop(notice: Notice)

  /** Messages reach a command handler only from a permitted chat. */
  function ChatAccessFilter(chat: I64, permittedChats: seq<I64>): (g: Gate)
    ensures g == Pass <==> chat in permittedChats
    ensures g != Pass ==> g == Stop(BadChatId)
  {
    match CheckChatAccess(chat, permittedChats)
    case Granted => Pass
    case Declined => Stop(BadChatId)
  }

  /**
   * Resolves a callback's payload to the profile it selects. A payload is
   * honoured only when it is the payload of a menu button whose index lies
   * inside the profile list.
   */
  function ButtonQueryParser(data: Option<string>, cmds: NgrokCmds): (r: Result<NgrokCmd, Notice>)
    ensures data.None? ==> r == Err(ButtonHandlerMissed)
    ensures data.Some? && TryFrom(data.value).Err? ==> r == Err(BadInlineDataType)
    ensures forall i: Usize {:trigger Encode(Ngrok(i))} :: data == Some(Encode(Ngrok(i))) ==>
              r == if i < |cmds| then Ok(cmds[i]) else Err(BadOptionSelected)
    ensures r.Ok? ==> exists i: Usize :: i < |cmds| && data == Some(Encode(Ngrok(i))) && r.value == cmds[i]
  {
    TryFromEncodeAll();
    match data
    case None => Err(ButtonHandlerMissed)
    case Some(raw) =>
      match TryFrom(raw)
      case Err(e) => Err(e)
      case Ok(Ngrok(idx)) =>
        EncodeTryFrom(raw, Ngrok(idx));
        if idx >= |cmds| then Err(BadOptionSelected) else Ok(cmds[idx])
  }

  /** The button of menu row `j` selects exactly the profile that row was built from. */
  lemma MenuButtonSelectsItsProfile(user: U64, cmds: NgrokCmds, j: nat)
    requires j < |AllowedCmds(user, cmds)|
    ensures var pair := AllowedCmds(user, cmds)[j];
            var button := MakeNgrokCmdKeyboard(AllowedCmds(user, cmds))[j][0];
            ButtonQueryParser(Some(button.callbackData), cmds) == Ok(pair.1) && pair.1 == cmds[pair.0]
  {
    var pair := AllowedCmds(user, cmds)[j];
    var button := MakeNgrokCmdKeyboard(AllowedCmds(user, cmds))[j][0];
    EncodeTryFrom(button.callbackData, Ngrok(pair.0));
  }

  /** A selection is re-checked against the profile's allow-list; a refusal names the profile. */
  function ButtonAccessFilter(user: U64, cmd: NgrokCmd): (g: Gate)
    ensures g == Pass <==> user in cmd.permittedUsers
    ensures g != Pass ==> g == Stop(AccessDeclined(cmd.description))
  {
    match CheckUserAccess(user, cmd)
    case Granted => Pass
    case Declined => Stop(AccessDeclined(cmd.description))
  }

  const DEFAULT_HOWTO := "Nothing special, just use it"

  function HowtoOrDefault(howto: Option<string>): string {
    match howto
    case Some(h) => h
    case None => DEFAULT_HOWTO
  }

  /**
   * The two reply templates of the `responds` module, as the functions
   * their substitution computes: the success text from the start report,
   * the URL and the howto; the failure text from the discovery error.
   */
  datatype Templates = Templates(
    tunnelObtained: (string, string, string) -> string,
    apiConnectionError: string -> string)

  /**
   * The text `start_ngrok` settles on: `Ok` when a tunnel was started and
   * its URL found, `Err` otherwise. The supervisor is always asked to stop a
   * running tunnel first, and the profile carries no domain.
   */
  function StartOutcome(cmd: NgrokCmd, spawn: seq<string> -> bool, reply: Tunnel.ApiReply,
                        parseUrl: string -> Option<string>, templates: Templates): (r: Result<string, string>)
    ensures r.Ok? <==> spawn(Tunnel.ArgumentList(cmd.connectionType, cmd.port, None))
                       && Tunnel.DiscoveryOutcome(reply, parseUrl).Ok?
    ensures !spawn(Tunnel.ArgumentList(cmd.connectionType, cmd.port, None)) ==>
              r == Err(Tunnel.FailedReport(cmd.connectionType, cmd.port))
    ensures spawn(Tunnel.ArgumentList(cmd.connectionType, cmd.port, None))
            && Tunnel.DiscoveryOutcome(reply, parseUrl).Err? ==>
              r == Err(templates.apiConnectionError(Tunnel.DiscoveryOutcome(reply, parseUrl).error))
    ensures r.Ok? ==> r.value == templates.tunnelObtained(Tunnel.StartedReport(cmd.connectionType, cmd.port),
                                                          Tunnel.DiscoveryOutcome(reply, parseUrl).value,
                                                          HowtoOrDefault(cmd.howto))
  {
    assert Tunnel.ArgumentList(cmd.connectionType, cmd.port, None) == [cmd.connectionType, Decimal.NatToString(cmd.port)];
    if !spawn(Tunnel.ArgumentList(cmd.connectionType, cmd.port, None)) then
      Err(Tunnel.FailedReport(cmd.connectionType, cmd.port))
    else match Tunnel.DiscoveryOutcome(reply, parseUrl)
      case Ok(url) =>
        Ok(templates.tunnelObtained(Tunnel.StartedReport(cmd.connectionType, cmd.port), url, HowtoOrDefault(cmd.howto)))
      case Err(e) => Err(templates.apiConnectionError(e))
  }

  function OutcomeText(r: Result<string, string>): string {
    match r
    case Ok(t) => t
    case Err(t) => t
  }

  /**
   * Starts the selected profile and looks up its URL; on any failure the
   * supervisor is told to stop, so a tunnel is left running only when its
   * URL has been reported. `child` is the sender of the child spawned by
   * this call, if one was.
   */
  method StartNgrok(ngrok: Tunnel.Ngrok, cmd: NgrokCmd, spawn: seq<string> -> bool, reply: Tunnel.ApiReply,
                    parseUrl: string -> Option<string>, templates: Templates)
    returns (answer: string, ghost child: Option<Tunnel.KillSender>)
    requires ngrok.Valid()
    modifies ngrok, ngrok.Held()
    ensures ngrok.Valid()
    ensures answer == OutcomeText(StartOutcome(cmd, spawn, reply, parseUrl, templates))
    ensures ngrok.IsRun() <==> StartOutcome(cmd, spawn, reply, parseUrl, templates).Ok?
    ensures old(ngrok.killChannel).Some? ==> old(ngrok.killChannel).value.fired
    ensures !spawn(Tunnel.ArgumentList(cmd.connectionType, cmd.port, None)) ==>
              child.None? && ngrok.spawned == old(ngrok.spawned)
    ensures spawn(Tunnel.ArgumentList(cmd.connectionType, cmd.port, None)) ==>
              && child.Some? && fresh(child.value)
              && ngrok.spawned == old(ngrok.spawned) + {child.value}
              && (StartOutcome(cmd, spawn, reply, parseUrl, templates).Err? ==> child.value.fired)
    ensures ngrok.IsRun() ==> ngrok.killChannel == child
  {
    var started := ngrok.Start(cmd.connectionType, cmd.port, None, true, spawn);
    child := ngrok.killChannel;
    var result: Result<string, string>;
    match started {
      case Ok(report) =>
        var fetched := ngrok.FetchUrl(reply, parseUrl);
        match fetched {
          case Ok(url) =>
            result := Ok(templates.tunnelObtained(report, url, HowtoOrDefault(cmd.howto)));
          case Err(e) =>
            result := Err(templates.apiConnectionError(e));
        }
      case Err(e) =>
        result := Err(e);
    }
    match result {
      case Ok(text) =>
        answer := text;
      case Err(text) =>
        ngrok.Kill();
        answer := text;
    }
  }

  function DotCount(s: string): nat {
    if s == [] then 0 else (if s[0] == '.' then 1 else 0) + DotCount(s[1..])
  }

  /**
   * The text as MarkdownV2 needs it: every `.` written as `\.`, every other
   * character kept. No dot is left without a backslash in front of it.
   */
  function EscapeDots(s: string): (r: string)
    ensures |r| == |s| + DotCount(s)
    ensures forall i :: 0 <= i < |r| && r[i] == '.' ==> 0 < i && r[i - 1] == '\\'
    ensures DotCount(s) == 0 ==> r == s
  {
    if s == [] then [] else (if s[0] == '.' then "\\." else [s[0]]) + EscapeDots(s[1..])
  }

  /** Reads `\.` back as `.`; the inverse of `EscapeDots`. */
  function UnescapeDots(s: string): string
    decreases |s|
  {
    if |s| >= 2 && s[0] == '\\' && s[1] == '.' then "." + UnescapeDots(s[2..])
    else if s == [] then []
    else [s[0]] + UnescapeDots(s[1..])
  }

  /** Escaping loses nothing: undoing it gives back the original text. */
  lemma {:induction false} UnescapeEscapeDots(s: string)
    ensures UnescapeDots(EscapeDots(s)) == s
  {
    if s != [] {
      var e := EscapeDots(s);
      var t := EscapeDots(s[1..]);
      UnescapeEscapeDots(s[1..]);
      if s[0] == '.' {
        assert e[2..] == t;
      } else {
        assert e[1..] == t;
        assert !(|e| >= 2 && e[0] == '\\' && e[1] == '.');
      }
      assert s == [s[0]] + s[1..];
    }
  }

  /** What the bot does with a callback: a notice, or the text it edits the menu message into. */
  datatype CallbackOutcome = Rejected(notice: Notice) | Edited(text: string)

  /**
   * The callback branch: resolve the selection, re-check access, then start
   * the profile. A rejected callback never reaches the supervisor; an
   * accepted one stops the running tunnel, and `child` is the sender of the
   * child it spawned, if any.
   */
  method HandleCallback(ngrok: Tunnel.Ngrok, cfg: Config, from: U64, data: Option<string>,
                        spawn: seq<string> -> bool, reply: Tunnel.ApiReply,
                        parseUrl: string -> Option<string>, templates: Templates)
    returns (outcome: CallbackOutcome, ghost child: Option<Tunnel.KillSender>)
    requires ngrok.Valid()
    modifies ngrok, ngrok.Held()
    ensures ngrok.Valid()
    ensures ButtonQueryParser(data, cfg.ngrokCmds).Err? ==>
              outcome == Rejected(ButtonQueryParser(data, cfg.ngrokCmds).error)
    ensures ButtonQueryParser(data, cfg.ngrokCmds).Ok? && from !in ButtonQueryParser(data, cfg.ngrokCmds).value.permittedUsers ==>
              outcome == Rejected(AccessDeclined(ButtonQueryParser(data, cfg.ngrokCmds).value.description))
    ensures outcome.Rejected? ==> unchanged(ngrok) && unchanged(old(ngrok.Held()))
    ensures outcome.Edited? <==>
              ButtonQueryParser(data, cfg.ngrokCmds).Ok? && from in ButtonQueryParser(data, cfg.ngrokCmds).value.permittedUsers
    ensures outcome.Edited? ==>
              && ButtonQueryParser(data, cfg.ngrokCmds).Ok?
              && var cmd := ButtonQueryParser(data, cfg.ngrokCmds).value;
              && outcome.text == EscapeDots(OutcomeText(StartOutcome(cmd, spawn, reply, parseUrl, templates)))
              && (ngrok.IsRun() <==> StartOutcome(cmd, spawn, reply, parseUrl, templates).Ok?)
              && (old(ngrok.killChannel).Some? ==> old(ngrok.killChannel).value.fired)
              && (!spawn(Tunnel.ArgumentList(cmd.connectionType, cmd.port, None)) ==>
                    child.None? && ngrok.spawned == old(ngrok.spawned))
              && (spawn(Tunnel.ArgumentList(cmd.connectionType, cmd.port, None)) ==>
                    && child.Some? && fresh(child.value)
                    && ngrok.spawned == old(ngrok.spawned) + {child.value}
                    && (StartOutcome(cmd, spawn, reply, parseUrl, templates).Err? ==> child.value.fired))
              && (ngrok.IsRun() ==> ngrok.killChannel == child)
  {
    child := None;
    var parsed := ButtonQueryParser(data, cfg.ngrokCmds);
    if parsed.Err? {
      outcome := Rejected(parsed.error);
      return;
    }
    var cmd := parsed.value;
    var gate := ButtonAccessFilter(from, cmd);
    if gate.Stop? {
      outcome := Rejected(gate.notice);
      return;
    }
    var answer;
    answer, child := StartNgrok(ngrok, cmd, spawn, reply, parseUrl, templates);
    outcome := Edited(EscapeDots(answer));
  }

  /** An incoming message, as the command parser reads it. */
  datatype Incoming = Command(command: Cmds.Command) | Unrecognized

  /** What the bot sends back: a command's response, or one of the fixed notices. */
  datatype Sent = Response(response: CommandResponse) | Notified(notice: Notice)

  /**
   * The message branch: the chat gate first, then the handler of the
   * command. A message from a chat not permitted gets the one notice and
   * nothing else happens.
   */
  method HandleMessage(ngrok: Tunnel.Ngrok, cfg: Config, chat: I64, from: Option<U64>, incoming: Incoming)
    returns (sent: Sent)
    requires ngrok.Valid()
    modifies ngrok, ngrok.Held()
    ensures ngrok.Valid()
    ensures chat !in cfg.permittedChats ==> sent == Notified(BadChatId)
    ensures incoming != Command(KillNgrok) || chat !in cfg.permittedChats ==>
              unchanged(ngrok) && unchanged(old(ngrok.Held()))
    ensures chat in cfg.permittedChats ==>
              match incoming
              case Command(Start) => sent == Response(StartCmd())
              case Command(NgrokMenu) => sent == Response(ListNgrokCmd(from, cfg.ngrokCmds))
              case Command(Help) => sent == Response(HelpCmd())
              case Command(KillNgrok) =>
                && sent == Response(if old(ngrok.IsRun()) then WithoutMarkup(KILLED) else WithoutMarkup(ALREADY_DEAD))
                && !ngrok.IsRun()
                && ngrok.spawned == old(ngrok.spawned)
                && (old(ngrok.IsRun()) ==> old(ngrok.killChannel).value.fired)
              case Unrecognized => sent == Response(ErrorCmd())
  {
    var gate := ChatAccessFilter(chat, cfg.permittedChats);
    if gate.Stop? {
      return Notified(gate.notice);
    }
    match incoming {
      case Command(Start) =>
        sent := Response(StartCmd());
      case Command(NgrokMenu) =>
        sent := Response(ListNgrokCmd(from, cfg.ngrokCmds));
      case Command(KillNgrok) =>
        var r := KillNgrokCmd(ngrok);
        sent := Response(r);
      case Command(Help) =>
        sent := Response(HelpCmd());
      case Unrecognized =>
        sent := Response(ErrorCmd());
    }
  }

  /**
   * A user allowed profile 0 (`tcp` on port 22, no howto) presses its
   * button; ngrok starts and reports one tunnel whose URL, which names its
   * port explicitly, parses. The menu message is edited into the success
   * text carrying that URL and the default howto.
   */
  method SelectionStartsTunnel(spawn: seq<string> -> bool, parseUrl: string -> Option<string>, templates: Templates)
    returns (outcome: CallbackOutcome)
    requires spawn(["tcp", "22"])
    requires parseUrl("tcp://0.tcp.ngrok.io:12345") == Some("tcp://0.tcp.ngrok.io:12345")
    ensures outcome == Edited(EscapeDots(templates.tunnelObtained(
              "Start tcp connection on 22 port", "tcp://0.tcp.ngrok.io:12345", DEFAULT_HOWTO)))
  {
    var ngrok := new Tunnel.Ngrok();
    var ssh := NgrokCmd("ssh", "tcp", 22, [7], None);
    var cfg := Config("key", [ssh], [1]);
    var url := "tcp://0.tcp.ngrok.io:12345";
    var reply := Tunnel.Received(Tunnel.Tunnels([url]));
    assert Decimal.NatToString(22) == "22" by {
      assert Decimal.NatToString(2) == "2";
    }
    assert Tunnel.ArgumentList("tcp", 22, None) == ["tcp", "22"];
    assert Tunnel.StartedReport("tcp", 22) == "Start tcp connection on 22 port";
    assert Tunnel.DiscoveryOutcome(reply, parseUrl) == Ok(url);
    assert StartOutcome(ssh, spawn, reply, parseUrl, templates)
           == Ok(templates.tunnelObtained("Start tcp connection on 22 port", url, DEFAULT_HOWTO));
    assert ButtonQueryParser(Some(Encode(Ngrok(0))), cfg.ngrokCmds) == Ok(ssh);
    ghost var child;
    outcome, child := HandleCallback(ngrok, cfg, 7, Some(Encode(Ngrok(0))), spawn, reply, parseUrl, templates);
  }
}
