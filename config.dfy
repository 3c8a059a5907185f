/**
 * The configuration records: a tunnel profile (`NgrokCmd`) and the whole
 * configuration. Loading them from YAML is not part of this model.
 */
module Config {
  import opened Wrappers

  const U32_MAX: nat := 0xFFFF_FFFF
  const U64_MAX: nat := 0xFFFF_FFFF_FFFF_FFFF

  type U32 = n: nat | n <= U32_MAX
  type U64 = n: nat | n <= U64_MAX
  type I64 = n: int | -0x8000_0000_0000_0000 <= n <= 0x7FFF_FFFF_FFFF_FFFF

  /** A `usize` on the 64-bit targets the bot is built for. */
  type Usize = U64

  /** One tunnel profile: what to expose, and who may start it. */
  datatype NgrokCmd = NgrokCmd(
    description: string,
    connectionType: string,
    port: U32,
    permittedUsers: seq<U64>,
    howto: Option<string>)

  /** The ordered profile list; a `Vec` never holds more entries than a `usize` counts. */
  type NgrokCmds = s: seq<NgrokCmd> | |s| <= U64_MAX witness []

  datatype Config = Config(
    botKey: string,
    ngrokCmds: NgrokCmds,
    permittedChats: seq<I64>)
}
