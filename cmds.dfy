/** The replies to the bot's text commands. */
module Cmds {
  import opened Wrappers
  import opened Config
  import opened Access
  import opened Keyboard
  import Tunnel

  /** The bot's commands, in declaration order. */
  datatype Command = Start | NgrokMenu | KillNgrok | Help

  const COMMANDS: seq<Command> := [Start, NgrokMenu, KillNgrok, Help]

  /** A command as the bot lists it: `/` and the variant name in lower case. */
  function CommandName(c: Command): string {
    match c
    case Start => "/start"
    case NgrokMenu => "/ngrok"
    case KillNgrok => "/killngrok"
    case Help => "/help"
  }

  function CommandNames(cs: seq<Command>): seq<string> {
    if cs == [] then [] else [CommandName(cs[0])] + CommandNames(cs[1..])
  }

  function Join(xs: seq<string>, sep: string): string {
    if |xs| == 0 then "" else if |xs| == 1 then xs[0] else xs[0] + sep + Join(xs[1..], sep)
  }

  /** The command names, in declaration order, separated by `", "`. */
  function GatherCommandsAsStr(): (s: string)
    ensures s == "/start, /ngrok, /killngrok, /help"
  {
    CommandNamesInOrder();
    JoinCommandNames();
    Join(CommandNames(COMMANDS), ", ")
  }

  lemma CommandNamesInOrder()
    ensures CommandNames(COMMANDS) == ["/start", "/ngrok", "/killngrok", "/help"]
  {
    assert CommandNames([Help]) == ["/help"];
    assert CommandNames([KillNgrok, Help]) == ["/killngrok", "/help"];
    assert CommandNames([NgrokMenu, KillNgrok, Help]) == ["/ngrok", "/killngrok", "/help"];
  }

  lemma JoinCommandNames()
    ensures Join(["/start", "/ngrok", "/killngrok", "/help"], ", ") == "/start, /ngrok, /killngrok, /help"
  {
    JoinCons("/killngrok", ["/help"], ", ");
    JoinCons("/ngrok", ["/killngrok", "/help"], ", ");
    JoinCons("/start", ["/ngrok", "/killngrok", "/help"], ", ");
    assert "/start" + ", " + ("/ngrok" + ", " + ("/killngrok" + ", " + "/help")) == "/start, /ngrok, /killngrok, /help";
  }

  lemma JoinCons(x: string, xs: seq<string>, sep: string)
    requires |xs| >= 1
    ensures Join([x] + xs, sep) == x + sep + Join(xs, sep)
  {
    assert ([x] + xs)[1..] == xs;
  }

  datatype ReplyMarkup = Inline(inline: seq<seq<InlineButton>>) | Reply(reply: KeyboardMarkup)

  datatype CommandResponse =
    | WithMarkup(msg: string, keyboard: ReplyMarkup)
    | WithoutMarkup(msg: string)

  const PRESS_NGROK := "\U{1F916} Press /ngrok"
  const STRANGER := "\U{1F916} I don't know who the fuck are you. Sorry, mate. Don't speak to strangers."
  const NO_COMMANDS := "\U{1F916} No commands for you, pal. Sorry. Ask permission from chat owner, maybe?"
  const CHOOSE_CONFIG := "\U{1F916} Choose ngrok config to start expose target:"
  const KILLED := "\U{1FAE1} Ngrok killed!"
  const ALREADY_DEAD := "\U{1F480} Ngrok actually dead..."
  const HELP_HEAD := "\U{1F916} Available commands:\n"
  const ERROR_HEAD := "\U{1F485}\U{1F3FB} This command does not exist, you dummy!\n\nHere are available commands:\n"

  /** `/start` offers the startup keyboard, whose buttons are themselves bot commands. */
  function StartCmd(): (r: CommandResponse)
    ensures r == WithMarkup(PRESS_NGROK, Reply(MakeStartupKeyboard()))
    ensures forall b :: b in r.keyboard.reply.rows[0] ==> exists c :: c in COMMANDS && CommandName(c) == b
  {
    assert CommandName(NgrokMenu) == "/ngrok" && CommandName(KillNgrok) == "/killngrok";
    WithMarkup(PRESS_NGROK, Reply(MakeStartupKeyboard()))
  }

  /**
   * The profiles, from position `k` on, that `user` may start, each paired
   * with its position in the configuration.
   */
  function AllowedFrom(user: U64, cmds: NgrokCmds, k: nat): (r: seq<(Usize, NgrokCmd)>)
    requires k <= |cmds|
    ensures forall j :: 0 <= j < |r| ==>
              k <= r[j].0 < |cmds| && r[j].1 == cmds[r[j].0] && CheckUserAccess(user, r[j].1) == Granted
    ensures forall j1, j2 :: 0 <= j1 < j2 < |r| ==> r[j1].0 < r[j2].0
    ensures forall i :: k <= i < |cmds| && CheckUserAccess(user, cmds[i]) == Granted ==> (i, cmds[i]) in r
    decreases |cmds| - k
  {
    if k == |cmds| then []
    else if CheckUserAccess(user, cmds[k]) == Granted then [(k, cmds[k])] + AllowedFrom(user, cmds, k + 1)
    else AllowedFrom(user, cmds, k + 1)
  }

  /**
   * The profiles `user` may start, with their configuration indices, in
   * configuration order: exactly the granted ones.
   */
  function AllowedCmds(user: U64, cmds: NgrokCmds): (r: seq<(Usize, NgrokCmd)>)
    ensures forall j :: 0 <= j < |r| ==>
              r[j].0 < |cmds| && r[j].1 == cmds[r[j].0] && user in r[j].1.permittedUsers
    ensures forall j1, j2 :: 0 <= j1 < j2 < |r| ==> r[j1].0 < r[j2].0
    ensures forall i :: 0 <= i < |cmds| && user in cmds[i].permittedUsers ==> (i, cmds[i]) in r
  {
    AllowedFrom(user, cmds, 0)
  }

  /** `/ngrok`: the menu of the profiles the sender may start. */
  function ListNgrokCmd(user: Option<U64>, cmds: NgrokCmds): (r: CommandResponse)
    ensures user.None? ==> r == WithoutMarkup(STRANGER)
    ensures user.Some? && (forall i :: 0 <= i < |cmds| ==> user.value !in cmds[i].permittedUsers)
            ==> r == WithoutMarkup(NO_COMMANDS)
    ensures user.Some? && (exists i :: 0 <= i < |cmds| && user.value in cmds[i].permittedUsers)
            ==> r == WithMarkup(CHOOSE_CONFIG, Inline(MakeNgrokCmdKeyboard(AllowedCmds(user.value, cmds))))
  {
    match user
    case None => WithoutMarkup(STRANGER)
    case Some(u) =>
      var allowed := AllowedCmds(u, cmds);
      if |allowed| == 0 then WithoutMarkup(NO_COMMANDS)
      else
        assert allowed[0].0 < |cmds| && u in cmds[allowed[0].0].permittedUsers;
        WithMarkup(CHOOSE_CONFIG, Inline(MakeNgrokCmdKeyboard(allowed)))
  }

  /**
   * A user listed for profile `i` alone sees a one-button menu, and that
   * button starts profile `i`.
   */
  lemma {:induction false} MenuOfSingleProfile(user: U64, cmds: NgrokCmds, i: nat)
    requires i < |cmds| && user in cmds[i].permittedUsers
    requires forall j :: 0 <= j < |cmds| && j != i ==> user !in cmds[j].permittedUsers
    ensures ListNgrokCmd(Some(user), cmds).WithMarkup?
    ensures ListNgrokCmd(Some(user), cmds).keyboard.inline
            == [[InlineButton(cmds[i].description, Encode(Ngrok(i)))]]
  {
    OnlyProfileAllowed(user, cmds, i, 0);
  }

  lemma {:induction false} OnlyProfileAllowed(user: U64, cmds: NgrokCmds, i: nat, k: nat)
    requires k <= i < |cmds| && user in cmds[i].permittedUsers
    requires forall j :: 0 <= j < |cmds| && j != i ==> user !in cmds[j].permittedUsers
    ensures AllowedFrom(user, cmds, k) == [(i, cmds[i])]
    decreases i - k
  {
    if k < i {
      OnlyProfileAllowed(user, cmds, i, k + 1);
    } else {
      NoneAllowedFrom(user, cmds, k + 1);
    }
  }

  lemma {:induction false} NoneAllowedFrom(user: U64, cmds: NgrokCmds, k: nat)
    requires k <= |cmds|
    requires forall j :: k <= j < |cmds| ==> user !in cmds[j].permittedUsers
    ensures AllowedFrom(user, cmds, k) == []
    decreases |cmds| - k
  {
    if k < |cmds| {
      NoneAllowedFrom(user, cmds, k + 1);
    }
  }

  /** `/killngrok`: stops a running tunnel, and says so; on an idle supervisor only says it is dead. */
  method KillNgrokCmd(ngrok: Tunnel.Ngrok) returns (r: CommandResponse)
    requires ngrok.Valid()
    modifies ngrok, ngrok.Held()
    ensures ngrok.Valid() && !ngrok.IsRun() && ngrok.spawned == old(ngrok.spawned)
    ensures old(ngrok.IsRun()) ==> r == WithoutMarkup(KILLED) && old(ngrok.killChannel).value.fired
    ensures !old(ngrok.IsRun()) ==> r == WithoutMarkup(ALREADY_DEAD) && unchanged(ngrok)
  {
    if ngrok.IsRun() {
      ngrok.Kill();
      r := WithoutMarkup(KILLED);
    } else {
      r := WithoutMarkup(ALREADY_DEAD);
    }
  }

  /** A second `/killngrok` always finds the tunnel dead. */
  method KillNgrokTwice(ngrok: Tunnel.Ngrok) returns (first: CommandResponse, second: CommandResponse)
    requires ngrok.Valid()
    modifies ngrok, ngrok.Held()
    ensures second == WithoutMarkup(ALREADY_DEAD) && !ngrok.IsRun()
  {
    first := KillNgrokCmd(ngrok);
    second := KillNgrokCmd(ngrok);
  }

  /** `/help`: the command list. */
  function HelpCmd(): (r: CommandResponse)
    ensures r == WithoutMarkup(HELP_HEAD + "/start, /ngrok, /killngrok, /help.")
  {
    assert HELP_HEAD + GatherCommandsAsStr() + "." == HELP_HEAD + "/start, /ngrok, /killngrok, /help.";
    WithoutMarkup(HELP_HEAD + GatherCommandsAsStr() + ".")
  }

  /** Any other text: the command list, framed as an error. */
  function ErrorCmd(): (r: CommandResponse)
    ensures r == WithoutMarkup(ERROR_HEAD + "/start, /ngrok, /killngrok, /help.")
  {
    assert ERROR_HEAD + GatherCommandsAsStr() + "." == ERROR_HEAD + "/start, /ngrok, /killngrok, /help.";
    WithoutMarkup(ERROR_HEAD + GatherCommandsAsStr() + ".")
  }
}
