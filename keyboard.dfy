/**
 * Menus and the callback payload. A profile button carries the JSON text of
 * `ButtonQuery::Ngrok { cmd_idx }`, internally tagged by `type`, and the
 * callback handler reads it back.
 */
module Keyboard {
  import opened Wrappers
  import opened Config
  import opened Responds
  import Decimal

  datatype ButtonQuery = Ngrok(cmdIdx: Usize)

  /** The text in front of the index in the JSON of a `ButtonQuery::Ngrok`. */
  const NGROK_QUERY_HEAD := "{\"type\":\"Ngrok\",\"cmd_idx\":"

  /** The compact JSON serde_json writes for a query: `{"type":"Ngrok","cmd_idx":n}`. */
  function Encode(q: ButtonQuery): (s: string)
    ensures |s| > |NGROK_QUERY_HEAD| && s[..|NGROK_QUERY_HEAD|] == NGROK_QUERY_HEAD && s[|s| - 1] == '}'
  {
    NGROK_QUERY_HEAD + Decimal.NatToString(q.cmdIdx) + "}"
  }

  /**
   * Reads a payload back; anything that is not the JSON of a query, or whose
   * index does not fit a `usize`, is refused with `BAD_INLINE_DATA_TYPE`.
   */
  function TryFrom(s: string): (r: Result<ButtonQuery, Notice>)
    ensures r.Err? ==> r.error == BadInlineDataType
  {
    if |s| > |NGROK_QUERY_HEAD| && s[..|NGROK_QUERY_HEAD|] == NGROK_QUERY_HEAD && s[|s| - 1] == '}' then
      match Decimal.ParseNat(s[|NGROK_QUERY_HEAD|..|s| - 1])
      case Some(n) => if n <= U64_MAX then Ok(Ngrok(n)) else Err(BadInlineDataType)
      case None => Err(BadInlineDataType)
    else
      Err(BadInlineDataType)
  }

  /** Every query survives the trip through its payload. */
  lemma {:induction false} TryFromEncode(q: ButtonQuery)
    ensures TryFrom(Encode(q)) == Ok(q)
  {
    var s := Encode(q);
    assert s[|NGROK_QUERY_HEAD|..|s| - 1] == Decimal.NatToString(q.cmdIdx);
    Decimal.ParseNatToString(q.cmdIdx);
  }

  lemma TryFromEncodeAll()
    ensures forall q :: TryFrom(Encode(q)) == Ok(q)
  {
    forall q {
      TryFromEncode(q);
    }
  }

  /** A payload is accepted only when it is exactly the encoding of the query read from it. */
  lemma {:induction false} EncodeTryFrom(s: string, q: ButtonQuery)
    requires TryFrom(s) == Ok(q)
    ensures Encode(q) == s
  {
    var mid := s[|NGROK_QUERY_HEAD|..|s| - 1];
    Decimal.NatToStringOfParse(mid, q.cmdIdx);
    assert s == NGROK_QUERY_HEAD + mid + "}";
  }

  datatype InlineButton = InlineButton(text: string, callbackData: string)

  /** A reply keyboard: rows of button labels, and whether Telegram may shrink it. */
  datatype KeyboardMarkup = KeyboardMarkup(rows: seq<seq<string>>, resizeKeyboard: bool)

  /**
   * One row per (config index, profile) pair, in the given order; its only
   * button shows the profile's description and carries its config index.
   */
  function MakeNgrokCmdKeyboard(cmds: seq<(Usize, NgrokCmd)>): (kb: seq<seq<InlineButton>>)
    ensures |kb| == |cmds|
    ensures forall i :: 0 <= i < |kb| ==>
              && |kb[i]| == 1
              && kb[i][0].text == cmds[i].1.description
              && TryFrom(kb[i][0].callbackData) == Ok(Ngrok(cmds[i].0))
  {
    TryFromEncodeAll();
    seq(|cmds|, i requires 0 <= i < |cmds| => [InlineButton(cmds[i].1.description, Encode(Ngrok(cmds[i].0)))])
  }

  /** The keyboard shown on `/start`: `/ngrok` and `/killngrok` side by side. */
  function MakeStartupKeyboard(): (k: KeyboardMarkup)
    ensures k.rows == [["/ngrok", "/killngrok"]] && k.resizeKeyboard
  {
    KeyboardMarkup([["/ngrok", "/killngrok"]], true)
  }
}
