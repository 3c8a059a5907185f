/** The two allow-list gates: per-profile users and permitted chats. */
module Access {
  import opened Config

  datatype Access = Granted | Declined

  /** A user may start a profile exactly when listed in that profile's own allow-list. */
  function CheckUserAccess(user: U64, cmd: NgrokCmd): (a: Access)
    ensures a == Granted <==> user in cmd.permittedUsers
    ensures a == Declined <==> user !in cmd.permittedUsers
  {
    if user in cmd.permittedUsers then Granted else Declined
  }

  /** A chat may talk to the bot exactly when it is in the chat allow-list. */
  function CheckChatAccess(chat: I64, permittedChats: seq<I64>): (a: Access)
    ensures a == Granted <==> chat in permittedChats
    ensures a == Declined <==> chat !in permittedChats
  {
    if chat in permittedChats then Granted else Declined
  }

  /** An empty allow-list admits nobody. */
  lemma EmptyAllowListsDecline(user: U64, cmd: NgrokCmd, chat: I64)
    requires cmd.permittedUsers == []
    ensures CheckUserAccess(user, cmd) == Declined
    ensures CheckChatAccess(chat, []) == Declined
  {
  }

  /**
   * Only membership matters: two allow-lists holding the same ids, in any
   * order and with any repetitions, give the same decisions.
   */
  lemma DecisionsDependOnlyOnMembership(user: U64, c1: NgrokCmd, c2: NgrokCmd, chat: I64, chats1: seq<I64>, chats2: seq<I64>)
    requires forall u :: u in c1.permittedUsers <==> u in c2.permittedUsers
    requires forall c :: c in chats1 <==> c in chats2
    ensures CheckUserAccess(user, c1) == CheckUserAccess(user, c2)
    ensures CheckChatAccess(chat, chats1) == CheckChatAccess(chat, chats2)
  {
  }
}
