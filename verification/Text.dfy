/** Texts as Python's str.strip and str.upper treat them. */
module Text {

  /** The characters that strip() removes. */
  predicate IsSpace(c: char) {
    var n := c as int;
    || 0x09 <= n <= 0x0D || 0x1C <= n <= 0x20 || n == 0x85 || n == 0xA0 || n == 0x1680 || 0x2000 <= n <= 0x200A
    || n == 0x2028 || n == 0x2029 || n == 0x202F || n == 0x205F || n == 0x3000
  }

  /** strip() leaves nothing: the text is empty or all white space. */
  predicate IsBlank(text: string) { forall c | c in text :: IsSpace(c) }

  /** upper() as far as it can produce an ASCII capital: besides a to z, the dotless i and the long
      s have one.  A sharp s or a ligature becomes several letters (SS, FF, FI, FL, ST), and a few
      accented letters become one with a combining mark; no word that a caller compares with
      contains any of these, so they may stay as they are. */
  function UpperChar(c: char): char {
    if 'a' <= c <= 'z' then c - 'a' + 'A' else if c == '\U{0131}' then 'I' else if c == '\U{017F}' then 'S' else c
  }

  function Upper(text: string): string { seq(|text|, i requires 0 <= i < |text| => UpperChar(text[i])) }

  /** Texts that differ only in the case of their letters are the same in upper case. */
  lemma CaseDoesNotMatter(s: string, t: string)
    requires |s| == |t|
    requires forall i | 0 <= i < |s| :: s[i] == t[i] || ('a' <= s[i] <= 'z' && t[i] == s[i] - 'a' + 'A')
    ensures Upper(s) == Upper(t)
  {}
}
