/** The company contact constants and the two link builders of
    `src/utils/company.js`. */
module Company {
  import opened Common

  const NAME := "ByteAxis"
  const WHATSAPP := "+263 77 866 3941"
  const WHATSAPP_INTL := "263778663941"
  const VOIP := "08677212381"
  const WHATSAPP_PREFIX := "https://wa.me/"
  const TEL_PREFIX := "tel:"

  /** `s.replace(/\s+/g, '')`: every maximal run of whitespace is replaced by
      the empty string, scanning left to right. */
  function ReplaceWhitespaceRuns(s: string): string
    decreases |s|
  {
    if s == [] then []
    else if IsWhitespace(s[0]) then ReplaceWhitespaceRuns(TrimStart(s))
    else [s[0]] + ReplaceWhitespaceRuns(s[1..])
  }

  /** Reference definition: keep exactly the non-whitespace characters. */
  function NonWhitespace(s: string): string {
    if s == [] then []
    else if IsWhitespace(s[0]) then NonWhitespace(s[1..])
    else [s[0]] + NonWhitespace(s[1..])
  }

  /** How many whitespace characters `s` holds. */
  function WhitespaceCount(s: string): nat {
    if s == [] then 0
    else (if IsWhitespace(s[0]) then 1 else 0) + WhitespaceCount(s[1..])
  }

  /** Dropping a leading whitespace run does not change the non-whitespace
      characters. */
  lemma {:induction false} NonWhitespaceSkipsRun(s: string)
    ensures NonWhitespace(TrimStart(s)) == NonWhitespace(s)
    decreases |s|
  {
    if |s| > 0 && IsWhitespace(s[0]) {
      NonWhitespaceSkipsRun(s[1..]);
    }
  }

  /** Replacing whitespace runs removes exactly the whitespace characters. */
  lemma {:induction false} RunsRemoveWhitespace(s: string)
    ensures ReplaceWhitespaceRuns(s) == NonWhitespace(s)
    decreases |s|
  {
    if s == [] {
    } else if IsWhitespace(s[0]) {
      RunsRemoveWhitespace(TrimStart(s));
      NonWhitespaceSkipsRun(s);
    } else {
      RunsRemoveWhitespace(s[1..]);
    }
  }

  /** The stripped string holds no whitespace, keeps the other characters in
      their order, and loses exactly the whitespace characters. */
  lemma {:induction false} NonWhitespaceFacts(s: string)
    ensures NoWhitespace(NonWhitespace(s))
    ensures IsSubsequence(NonWhitespace(s), s)
    ensures |NonWhitespace(s)| == |s| - WhitespaceCount(s)
  {
    if s != [] {
      NonWhitespaceFacts(s[1..]);
      var t := NonWhitespace(s[1..]);
      if IsWhitespace(s[0]) {
        SubsequenceDropHead(t, s);
      } else {
        assert ([s[0]] + t)[1..] == t;
      }
    }
  }

  /** A string that holds no whitespace is its own stripped form. */
  lemma {:induction false} NonWhitespaceOfClean(s: string)
    requires NoWhitespace(s)
    ensures NonWhitespace(s) == s
  {
    if s != [] {
      NonWhitespaceOfClean(s[1..]);
    }
  }

  /** Stripping is idempotent. */
  lemma StripIdempotent(s: string)
    ensures ReplaceWhitespaceRuns(ReplaceWhitespaceRuns(s)) == ReplaceWhitespaceRuns(s)
  {
    RunsRemoveWhitespace(s);
    NonWhitespaceFacts(s);
    RunsRemoveWhitespace(NonWhitespace(s));
    NonWhitespaceOfClean(NonWhitespace(s));
  }

  /** `getTelLink(number)`: a `tel:` URI (RFC 3966, section 3) whose
      subscriber part is `number` with all whitespace removed. */
  function GetTelLink(number: string): (r: string)
    ensures |r| >= |TEL_PREFIX| && r[..|TEL_PREFIX|] == TEL_PREFIX
    ensures NoWhitespace(r[|TEL_PREFIX|..])
    ensures IsSubsequence(r[|TEL_PREFIX|..], number)
    ensures |r| == |TEL_PREFIX| + |number| - WhitespaceCount(number)
  {
    RunsRemoveWhitespace(number);
    NonWhitespaceFacts(number);
    var r := TEL_PREFIX + ReplaceWhitespaceRuns(number);
    assert r[|TEL_PREFIX|..] == ReplaceWhitespaceRuns(number);
    r
  }

  /** Building the link from an already stripped number strips nothing. */
  lemma TelLinkOfStripped(number: string)
    ensures GetTelLink(ReplaceWhitespaceRuns(number)) == GetTelLink(number)
  {
    StripIdempotent(number);
  }

  /** `getWhatsAppLink()`: the wa.me chat link for the company's number. */
  function GetWhatsAppLink(): (r: string)
    ensures |r| == |WHATSAPP_PREFIX| + |WHATSAPP_INTL|
    ensures r[..|WHATSAPP_PREFIX|] == WHATSAPP_PREFIX && r[|WHATSAPP_PREFIX|..] == WHATSAPP_INTL
  {
    WHATSAPP_PREFIX + WHATSAPP_INTL
  }
}
