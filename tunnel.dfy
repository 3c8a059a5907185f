/**
 * The ngrok supervisor: a single slot holding the kill channel of the child
 * it last spawned, the argument list handed to the `ngrok` binary, and the
 * decision taken on the reply of ngrok's local status API.
 *
 * Spawning the process, the HTTP request and URL parsing are outside the
 * model: their outcomes are parameters.
 */
module Tunnel {
  import opened Wrappers
  import opened Config
  import Decimal

  /**
   * The sending half of the one-shot kill channel created for a spawned
   * child. The supervising task kills the child as soon as its receiver
   * completes, which happens when a value is sent and also when this sender
   * is dropped; `fired` records that it has completed.
   */
  class KillSender {
    var fired: bool

    constructor ()
      ensures !fired
    {
      fired := false;
    }
  }

  /** Whether a custom domain is passed: only for `http` tunnels, and only when one is given. */
  predicate UsesDomain(connectionType: string, domain: Option<string>) {
    domain.Some? && connectionType == "http"
  }

  /** The command line of the `ngrok` child, after the program name. */
  function ArgumentList(connectionType: string, port: U32, domain: Option<string>): (args: seq<string>)
    ensures |args| == if UsesDomain(connectionType, domain) then 4 else 2
    ensures args[0] == connectionType
    ensures args[|args| - 1] == Decimal.NatToString(port)
    ensures UsesDomain(connectionType, domain) ==> args[1] == "--domain" && args[2] == domain.value
    ensures "--domain" in args[1..|args| - 1] <==> UsesDomain(connectionType, domain)
  {
    [connectionType]
      + (if UsesDomain(connectionType, domain) then ["--domain", domain.value] else [])
      + [Decimal.NatToString(port)]
  }

  /** The success text of `start`. */
  function StartedReport(connectionType: string, port: U32): string {
    "Start " + connectionType + " connection on " + Decimal.NatToString(port) + " port"
  }

  /** The failure text of `start`. */
  function FailedReport(connectionType: string, port: U32): string {
    "Failed to start " + connectionType + " connection on " + Decimal.NatToString(port) + " port"
  }

  const NOT_STARTED := "Ngrok was not started!"
  const CANT_PARSE := "Can't parse ngrok API response"
  const NO_TUNNELS := "Error: no tunnels were returned by Ngrok"
  const BAD_URL := "Bad URL returned from API"

  /** The body of ngrok's `/api/tunnels` reply, as deserialised: a failure, or the tunnels' public URLs. */
  datatype TunnelList = Malformed | Tunnels(publicUrls: seq<string>)

  /** The outcome of the HTTP request: a transport failure with its description, or the body. */
  datatype ApiReply = Unreachable(description: string) | Received(body: TunnelList)

  /**
   * The public URL of the first tunnel. `parseUrl` stands for URL parsing:
   * `Some(u)` when the text parses, `u` being the parsed URL written out.
   */
  function FirstTunnelUrl(body: TunnelList, parseUrl: string -> Option<string>): (r: Result<string, string>)
    ensures r.Ok? <==> body.Tunnels? && |body.publicUrls| > 0 && parseUrl(body.publicUrls[0]).Some?
    ensures r.Ok? ==> parseUrl(body.publicUrls[0]) == Some(r.value)
    ensures body.Malformed? ==> r == Err(CANT_PARSE)
    ensures body == Tunnels([]) ==> r == Err(NO_TUNNELS)
    ensures body.Tunnels? && |body.publicUrls| > 0 && r.Err? ==> r == Err(BAD_URL)
  {
    match body
    case Malformed => Err(CANT_PARSE)
    case Tunnels(urls) =>
      if |urls| == 0 then Err(NO_TUNNELS)
      else match parseUrl(urls[0])
        case Some(u) => Ok(u)
        case None => Err(BAD_URL)
  }

  /** Only the first tunnel is consulted: lists that agree on it give the same outcome. */
  lemma OnlyFirstTunnelCounts(urls1: seq<string>, urls2: seq<string>, parseUrl: string -> Option<string>)
    requires |urls1| > 0 && |urls2| > 0 && urls1[0] == urls2[0]
    ensures FirstTunnelUrl(Tunnels(urls1), parseUrl) == FirstTunnelUrl(Tunnels(urls2), parseUrl)
  {
  }

  /** What `fetch_url` yields for a running supervisor, given the API's reply. */
  function DiscoveryOutcome(reply: ApiReply, parseUrl: string -> Option<string>): (r: Result<string, string>)
    ensures r.Ok? <==> reply.Received? && FirstTunnelUrl(reply.body, parseUrl).Ok?
    ensures reply.Unreachable? ==> r == Err(reply.description)
    ensures reply.Received? ==> r == FirstTunnelUrl(reply.body, parseUrl)
  {
    match reply
    case Unreachable(description) => Err(description)
    case Received(body) => FirstTunnelUrl(body, parseUrl)
  }

  /** The supervisor: `killChannel` is the one slot, `None` when idle. */
  class Ngrok {
    var killChannel: Option<KillSender>
    /** Every sender ever stored in the slot, one per child spawned. */
    ghost var spawned: set<KillSender>

    /**
     * The sender in the slot belongs to a spawned child not yet told to stop,
     * and every other spawned child has been told to stop.
     */
    ghost predicate Valid()
      reads this, spawned
    {
      && (killChannel.Some? ==> killChannel.value in spawned && !killChannel.value.fired)
      && (forall s :: s in spawned && Some(s) != killChannel ==> s.fired)
    }

    /** The objects a supervisor operation may change: this and the sender in the slot. */
    ghost function Held(): set<object>
      reads this
    {
      if killChannel.Some? then {killChannel.value} else {}
    }

    constructor ()
      ensures Valid() && killChannel == None && spawned == {}
    {
      killChannel := None;
      spawned := {};
    }

    predicate IsRun()
      reads this
    {
      killChannel.Some?
    }

    /**
     * `is_run` is true exactly when some spawned child has not been told to
     * stop, and there is never more than one such child.
     */
    lemma AtMostOneLiveChild()
      requires Valid()
      ensures IsRun() <==> exists s :: s in spawned && !s.fired
      ensures forall s1, s2 :: s1 in spawned && s2 in spawned && !s1.fired && !s2.fired ==> s1 == s2
    {
      if IsRun() {
        assert killChannel.value in spawned && !killChannel.value.fired;
      }
    }

    /** Takes the sender out of the slot and signals it; on an empty slot nothing happens. */
    method Kill()
      requires Valid()
      modifies this, Held()
      ensures Valid() && spawned == old(spawned)
      ensures killChannel == None
      ensures old(killChannel).Some? ==> old(killChannel).value.fired
      ensures old(killChannel) == None ==> unchanged(this)
    {
      if killChannel.Some? {
        var sender := killChannel.value;
        killChannel := None;
        // The send is made whether or not the receiver is still there.
        sender.fired := true;
      }
    }

    /** Builds the argument list, one push at a time. */
    static method CollectArgs(connectionType: string, port: U32, domain: Option<string>) returns (args: seq<string>)
      ensures args == ArgumentList(connectionType, port, domain)
    {
      args := [connectionType];
      if domain.Some? {
        if connectionType == "http" {
          args := args + ["--domain"];
          args := args + [domain.value];
        }
      }
      args := args + [Decimal.NatToString(port)];
    }

    /**
     * Starts a child. `spawn` tells whether the OS starts `ngrok` with the
     * given arguments.
     */
    method Start(connectionType: string, port: U32, domain: Option<string>, killOnStart: bool,
                 spawn: seq<string> -> bool)
      returns (r: Result<string, string>)
      requires Valid()
      modifies this, Held()
      ensures Valid()
      // a running child is stopped first when asked to, and in any case when a new sender replaces its own
      ensures old(killChannel).Some? && (killOnStart || spawn(ArgumentList(connectionType, port, domain)))
              ==> old(killChannel).value.fired
      ensures spawn(ArgumentList(connectionType, port, domain)) ==>
                && r == Ok(StartedReport(connectionType, port))
                && killChannel.Some? && fresh(killChannel.value)
                && spawned == old(spawned) + {killChannel.value}
      ensures !spawn(ArgumentList(connectionType, port, domain)) ==>
                && r == Err(FailedReport(connectionType, port))
                && spawned == old(spawned)
                && killChannel == (if killOnStart then None else old(killChannel))
      ensures !spawn(ArgumentList(connectionType, port, domain)) && !killOnStart ==> unchanged(old(Held()))
    {
      if IsRun() && killOnStart {
        Kill();
      }
      var args := CollectArgs(connectionType, port, domain);
      if spawn(args) {
        var send := new KillSender();
        if killChannel.Some? {
          // Overwriting the slot drops the previous sender, which ends its child too.
          killChannel.value.fired := true;
        }
        killChannel := Some(send);
        spawned := spawned + {send};
        r := Ok(StartedReport(connectionType, port));
      } else {
        r := Err(FailedReport(connectionType, port));
      }
    }

    /** The public URL of the running tunnel, or why there is none. */
    method FetchUrl(reply: ApiReply, parseUrl: string -> Option<string>) returns (r: Result<string, string>)
      ensures !IsRun() ==> r == Err(NOT_STARTED)
      ensures IsRun() ==> r == DiscoveryOutcome(reply, parseUrl)
    {
      if !IsRun() {
        return Err(NOT_STARTED);
      }
      match reply {
        case Unreachable(description) =>
          r := Err(description);
        case Received(body) =>
          r := FirstTunnelUrl(body, parseUrl);
      }
    }
  }
}
