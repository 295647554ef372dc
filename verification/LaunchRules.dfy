/**
 * What a broker demands of a launch before it takes it: the size of its encoding, its runtime, its brief, its
 * timeout.
 */
module LaunchRules {
  import opened Wire

  const MAX_MESSAGE_BODY := 0x2_0000
  const MAX_BRIEF := 0x1_0000
  const MAX_PROVIDER := 64
  const MIN_TIMEOUT := 300
  const MAX_TIMEOUT := 1800

  // ---------------------------------------------------------------- text and its encodings

  /** The bytes of one character in UTF-8. */
  function Utf8Bytes(c: char): nat {
    if c as int < 0x80 then 1 else if c as int < 0x800 then 2 else if c as int < 0x1_0000 then 3 else 4
  }

  /** The bytes of one character inside a JSON string that is safe to embed in HTML. */
  function JsonBytes(c: char): nat {
    var n := c as int;
    if c == '"' || c == '\\' || n in {8, 9, 10, 12, 13} then 2
    else if n < 0x20 || c == '<' || c == '>' || c == '&' || n == 0x2028 || n == 0x2029 then 6
    else Utf8Bytes(c)
  }

  function ByteLength(s: string): nat {
    if s == "" then 0 else ByteLength(s[..|s| - 1]) + Utf8Bytes(s[|s| - 1])
  }

  function JsonLength(s: string): nat {
    if s == "" then 0 else JsonLength(s[..|s| - 1]) + JsonBytes(s[|s| - 1])
  }

  /** Unicode white space, which trimming removes. */
  predicate IsSpace(c: char) {
    var n := c as int;
    || 9 <= n <= 13 || n in {0x20, 0x85, 0xA0, 0x1680, 0x2028, 0x2029, 0x202F, 0x205F, 0x3000}
    || 0x2000 <= n <= 0x200A
  }

  predicate Blank(s: string) { forall c :: c in s ==> IsSpace(c) }

  // ---------------------------------------------------------------- Task.Validate

  predicate ValidIdentifier(s: string) {
    && s != "" && ByteLength(s) <= MAX_PROVIDER
    && forall i :: 0 <= i < |s| ==> 'a' <= s[i] <= 'z' || '0' <= s[i] <= '9' || (i > 0 && s[i] == '-')
  }

  predicate ValidBrief(s: string) {
    ByteLength(s) <= MAX_BRIEF && '\0' !in s && !Blank(s)
  }

  predicate ValidTimeout(seconds: int) {
    seconds == 0 || MIN_TIMEOUT <= seconds <= MAX_TIMEOUT
  }

  /** handleMessage's bound on the encoded body, and handleLaunch's checks on what it says. */
  predicate ValidLaunch(b: Body)
    requires b.LaunchBody?
  {
    && b.overhead + JsonLength(b.brief) <= MAX_MESSAGE_BODY
    && b.replyTo.scope != Workspace("")
    && ValidIdentifier(b.runtime) && ValidBrief(b.brief) && ValidTimeout(b.deadlineS)
  }

  // ---------------------------------------------------------------- the rules seen from outside

  /** Encoding never shortens a text, so the size bound is the stricter one as soon as enough is escaped. */
  lemma {:induction false} EncodingGrows(s: string)
    ensures |s| <= ByteLength(s) <= JsonLength(s) <= 6 * ByteLength(s)
  {
    if s != "" { EncodingGrows(s[..|s| - 1]); }
  }

  /** A brief of nothing but quotes doubles in its encoding. */
  lemma {:induction false} QuotesDouble(n: nat)
    ensures ByteLength(seq(n, _ => '"')) == n && JsonLength(seq(n, _ => '"')) == 2 * n
  {
    if n > 0 {
      QuotesDouble(n - 1);
      assert seq(n, _ => '"')[..n - 1] == seq(n - 1, _ => '"');
    }
  }

  /** The providers a brief may default to are identifiers. */
  lemma DefaultsAreIdentifiers()
    ensures ValidIdentifier("claude") && ValidIdentifier("codex") && ValidIdentifier("grok")
  {
    EncodedSmall("claude");
    EncodedSmall("codex");
    EncodedSmall("grok");
  }

  /** Plain text is as long as it looks. */
  lemma {:induction false} EncodedSmall(s: string)
    requires forall i :: 0 <= i < |s| ==> s[i] as int < 0x80
    ensures ByteLength(s) == |s|
  {
    if s != "" { EncodedSmall(s[..|s| - 1]); }
  }
}
