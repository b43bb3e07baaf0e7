/**
 * Full XMPP addresses (`localpart@domainpart/resourcepart`) and an abstract
 * version of the parser the connection uses to build one from a string.
 *
 * The real parser also applies stringprep profiles and length limits; here a
 * part is well formed when it is non-empty and, for the local and domain parts,
 * free of the two separator characters.
 */
module Jids {
  import opened Options

  datatype FullJid = FullJid(localpart: string, domainpart: string, resourcepart: string)
  {
    /** The textual form of the address. */
    function ToString(): string {
      localpart + "@" + domainpart + "/" + resourcepart
    }

    predicate Valid() {
      ValidLocalOrDomainpart(localpart) && ValidLocalOrDomainpart(domainpart) && resourcepart != []
    }
  }

  predicate ValidLocalOrDomainpart(s: string) {
    s != [] && '@' !in s && '/' !in s
  }

  /** The position of the first occurrence of `c` in `s`, if any. */
  function IndexOf(s: string, c: char): (r: Option<nat>)
    ensures r.None? ==> c !in s
    ensures r.Some? ==> r.value < |s| && s[r.value] == c && c !in s[..r.value]
  {
    if s == [] then None
    else if s[0] == c then Some(0)
    else match IndexOf(s[1..], c)
      case None => None
      case Some(i) =>
        assert s[1..][..i] == s[1..i + 1];
        Some(i + 1)
  }

  /** `IndexOf` finds the first occurrence: any position preceded only by other characters. */
  lemma IndexOfFirst(s: string, c: char, k: nat)
    requires k < |s| && s[k] == c && c !in s[..k]
    ensures IndexOf(s, c) == Some(k)
  {
    var r := IndexOf(s, c);
    assert c in s;
  }

  /**
   * Parses the textual form of a full address: the resource is everything after
   * the first '/', the local part is what precedes the first '@' before it.
   * `None` stands for the stringprep exception the real parser throws.
   */
  function EntityFullFrom(s: string): (r: Option<FullJid>)
    ensures r.Some? ==> r.value.Valid() && r.value.ToString() == s
  {
    match IndexOf(s, '/')
    case None => None
    case Some(slash) =>
      var bare := s[..slash];
      match IndexOf(bare, '@')
      case None => None
      case Some(at) =>
        var jid := FullJid(bare[..at], bare[at + 1..], s[slash + 1..]);
        if jid.Valid() then
          assert bare == bare[..at] + "@" + bare[at + 1..];
          assert s == bare + "/" + s[slash + 1..];
          Some(jid)
        else None
  }

  /** Parsing the textual form of a well-formed address gives that address back. */
  lemma ParseToString(jid: FullJid)
    requires jid.Valid()
    ensures EntityFullFrom(jid.ToString()) == Some(jid)
  {
    var s := jid.ToString();
    var bare := jid.localpart + "@" + jid.domainpart;
    var slash := |bare|;
    assert s == bare + "/" + jid.resourcepart;
    assert s[..slash] == bare;
    assert s[slash + 1..] == jid.resourcepart;
    assert '/' !in bare by {
      forall i | 0 <= i < |bare| ensures bare[i] != '/' {
        if i < |jid.localpart| {
          assert bare[i] == jid.localpart[i];
        } else if i > |jid.localpart| {
          assert bare[i] == jid.domainpart[i - |jid.localpart| - 1];
        }
      }
    }
    assert s[..slash] == bare;
    IndexOfFirst(s, '/', slash);
    var at := |jid.localpart|;
    assert bare[..at] == jid.localpart;
    assert bare[at + 1..] == jid.domainpart;
    IndexOfFirst(bare, '@', at);
  }

  /** Two well-formed addresses with the same textual form are the same address. */
  lemma ToStringInjective(a: FullJid, b: FullJid)
    requires a.Valid() && b.Valid()
    requires a.ToString() == b.ToString()
    ensures a == b
  {
    ParseToString(a);
    ParseToString(b);
  }
}
