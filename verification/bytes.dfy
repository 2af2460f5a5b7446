/** Texts as the codec of tags and the YAML library see them, which are bytes. */
module Bytes {

  type byte = x: int | 0 <= x < 256

  type Text = seq<byte>
}
