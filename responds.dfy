/**
 * The fixed reply texts the bot takes from its `responds` module. That
 * module's wording is not part of this model: a reply is identified by which
 * text it is (and, for a declined profile, by the description it names).
 */
module Responds {

  datatype Notice =
    | BadInlineDataType           // callback payload is not a ButtonQuery
    | ButtonHandlerMissed         // callback carries no payload
    | BadOptionSelected           // callback index outside the profile list
    | AccessDeclined(accessedCmd: string)  // user not permitted for the profile
    | BadChatId                   // chat not in the allow-list
}
