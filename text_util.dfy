/** lib/utils.ts: the one pure string helper of the library. */
module TextUtil {

  /** A UTF-16 code unit. A JavaScript string is a sequence of these, and
      `length` and `substring` count them, so a character outside the Basic
      Multilingual Plane takes two (a surrogate pair). */
  newtype CodeUnit = x: int | 0 <= x < 0x1_0000

  /** "..." in code units. */
  const Ellipsis: seq<CodeUnit> := [0x2E, 0x2E, 0x2E]

  /** `truncateText(text, length)`: the text itself when it fits, otherwise its
      first `length` code units followed by "...". `substring` clamps a
      negative end to 0, so a negative length keeps no code unit. A cut may
      fall between the two halves of a surrogate pair, as it does in the
      source. */
  function Truncate(text: seq<CodeUnit>, length: int): (r: seq<CodeUnit>)
    ensures |text| <= length ==> r == text
    ensures 0 <= length < |text| ==>
              |r| == length + 3 && r[..length] == text[..length] && r[length..] == Ellipsis
    ensures length < 0 ==> r == Ellipsis
  {
    if |text| <= length then text
    else text[..if length < 0 then 0 else length] + Ellipsis
  }

  /** Truncating a truncated text with the same length changes nothing. */
  lemma TruncateIdempotent(text: seq<CodeUnit>, length: int)
    ensures Truncate(Truncate(text, length), length) == Truncate(text, length)
  {
    var once := Truncate(text, length);
    if 0 <= length < |text| {
      assert once[..length] + Ellipsis == once;
    }
  }
}
