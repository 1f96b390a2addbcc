/** Event types of the form `domain.action` (events/types.go). */
module EventTypes {
  import opened GoStrings

  type EventType = GoString

  /** The bytes before the first dot, or the whole type when it has none. */
  function DomainOf(t: EventType): EventType {
    t[..IndexOf(t, '.')]
  }

  /** The bytes after the first dot, or nothing when there is none. */
  function ActionOf(t: EventType): EventType {
    if '.' in t then t[IndexOf(t, '.') + 1..] else ""
  }

  /** A rune other than a dot never swallows a dot byte, whether or not the bytes are valid UTF-8. */
  lemma SkipsNoDot(s: GoString, i: nat)
    requires i < |s| && DecodeRune(s, i).rune != '.' as int && '.' !in s[..i]
    ensures '.' !in s[..i + DecodeRune(s, i).width]
  {
    var w := DecodeRune(s, i).width;
    forall j | 0 <= j < i + w ensures s[j] != '.' {
      if j < i {
        assert s[j] in s[..i];
      }
    }
  }

  /** `EventType.Domain`: a scan by runes, then a slice at a byte index. */
  method Domain(e: EventType) returns (domain: EventType)
    ensures domain == DomainOf(e)
  {
    var i := 0;
    while i < |e|
      invariant i <= |e| && '.' !in e[..i]
    {
      var d := DecodeRune(e, i);
      if d.rune == '.' as int {
        IndexOfUnique(e, '.', i);
        return e[..i];
      }
      SkipsNoDot(e, i);
      i := i + d.width;
    }
    IndexOfUnique(e, '.', i);
    return e;
  }

  /** `EventType.Action` */
  method Action(e: EventType) returns (action: EventType)
    ensures action == ActionOf(e)
  {
    var i := 0;
    while i < |e|
      invariant i <= |e| && '.' !in e[..i]
    {
      var d := DecodeRune(e, i);
      if d.rune == '.' as int {
        IndexOfUnique(e, '.', i);
        return e[i + 1..];
      }
      SkipsNoDot(e, i);
      i := i + d.width;
    }
    return "";
  }

  /** The two parts rebuild the type, and no other pair with a dot-free first part does. */
  lemma SplitRebuilds(t: EventType)
    ensures '.' in t ==> DomainOf(t) + "." + ActionOf(t) == t
    ensures '.' !in t ==> DomainOf(t) == t && ActionOf(t) == ""
    ensures '.' !in DomainOf(t)
  {
    var i := IndexOf(t, '.');
    if i < |t| {
      assert t[i] == '.';
      assert t == t[..i] + [t[i]] + t[i + 1..];
    } else {
      assert t == t[..i];
    }
  }

  lemma SplitOfJoin(domain: EventType, action: EventType)
    requires '.' !in domain
    ensures DomainOf(domain + "." + action) == domain && ActionOf(domain + "." + action) == action
  {
    var t := domain + "." + action;
    assert t[..|domain|] == domain && t[|domain|] == '.';
    IndexOfUnique(t, '.', |domain|);
  }
}
