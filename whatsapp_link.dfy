/**
 * src/lib/utils/buildWhatsAppLink.ts: a `wa.me` chat link from a phone number,
 * stripped to its digits, and a message passed through the URI-component
 * encoder `enc`.
 */
module WhatsAppLink {
  import opened Wrappers
  import opened JsText

  const Base := "https://wa.me/"
  const TextParam := "?text="

  /** The longest prefix of s without a '?'. */
  function UpToQuestion(s: string): (r: string)
    ensures |r| <= |s| && r == s[..|r|]
    ensures forall i :: 0 <= i < |r| ==> r[i] != '?'
    ensures |r| < |s| ==> s[|r|] == '?'
  {
    if s == [] || s[0] == '?' then [] else [s[0]] + UpToQuestion(s[1..])
  }

  /** Digits followed by a '?' are cut exactly at the '?'. */
  lemma {:induction false} UpToQuestionOfDigits(d: string, rest: string)
    requires AllDigits(d)
    ensures UpToQuestion(d + "?" + rest) == d
  {
    if d == [] {
      assert (d + "?" + rest)[0] == '?';
    } else {
      assert (d + "?" + rest)[0] == d[0] && IsDigit(d[0]);
      assert (d + "?" + rest)[1..] == d[1..] + "?" + rest;
      UpToQuestionOfDigits(d[1..], rest);
    }
  }

  /** Reading a link back: the phone part up to the first '?', and the text after `?text=`. */
  function Decompose(link: string): (r: Option<(string, string)>)
    ensures r.Some? ==> |link| >= |Base| && link[..|Base|] == Base
  {
    if |link| < |Base| || link[..|Base|] != Base then None
    else
      var rest := link[|Base|..];
      var phone := UpToQuestion(rest);
      var after := rest[|phone|..];
      if |after| >= |TextParam| && after[..|TextParam|] == TextParam then Some((phone, after[|TextParam|..]))
      else None
  }

  /**
   * `buildWhatsAppLink`: the link reads back as the phone's digits, in their
   * original order, and the encoded message.
   */
  function BuildWhatsAppLink(phone: string, message: string, enc: string -> string): (link: string)
    ensures Decompose(link) == Some((DigitsOf(phone), enc(message)))
  {
    var cleaned := DigitsOf(phone);
    var link := Base + cleaned + TextParam + enc(message);
    assert link[..|Base|] == Base;
    assert link[|Base|..] == cleaned + "?" + ("text=" + enc(message));
    UpToQuestionOfDigits(cleaned, "text=" + enc(message));
    assert link[|Base|..][|cleaned|..] == TextParam + enc(message);
    link
  }

  /** The phone part of every link holds digits only. */
  lemma PhonePartIsDigits(phone: string, message: string, enc: string -> string)
    ensures var parts := Decompose(BuildWhatsAppLink(phone, message, enc));
      parts.Some? && AllDigits(parts.value.0)
  {
  }

  /** Building a link from the cleaned phone gives the same link: the cleaning is idempotent. */
  lemma CleanedPhoneSameLink(phone: string, message: string, enc: string -> string)
    ensures BuildWhatsAppLink(DigitsOf(phone), message, enc) == BuildWhatsAppLink(phone, message, enc)
  {
    DigitsOfIdempotent(phone);
  }

  /** Different digit sequences give different links, whatever the messages. */
  lemma DistinctPhonesDistinctLinks(p1: string, p2: string, m1: string, m2: string, enc: string -> string)
    requires DigitsOf(p1) != DigitsOf(p2)
    ensures BuildWhatsAppLink(p1, m1, enc) != BuildWhatsAppLink(p2, m2, enc)
  {
  }
}
