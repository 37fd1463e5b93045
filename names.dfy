/**
 * Name sanitisation (index.js:18-20) and the file names built from it
 * (index.js:146-147, index.js:273, index.js:308).
 */
module Names {
  import opened Wrappers

  /** A character the pattern [\w\-] keeps: ASCII letters, digits, '_' and '-'. */
  predicate IsNameChar(c: char) {
    'A' <= c <= 'Z' || 'a' <= c <= 'z' || '0' <= c <= '9' || c == '_' || c == '-'
  }

  predicate IsCleanName(s: string) {
    forall i :: 0 <= i < |s| ==> IsNameChar(s[i])
  }

  /**
   * The filter of index.js:19: every letter, digit, '_' and '-' is kept, in
   * order, and every other character is dropped.
   */
  function StripDisallowed(s: string): (r: string)
    ensures IsCleanName(r)
    ensures |r| <= |s|
    ensures IsCleanName(s) ==> r == s
  {
    if s == [] then []
    else
      (if IsNameChar(s[0]) then [s[0]] else []) + StripDisallowed(s[1..])
  }

  /** The filter loses no allowed character: each occurs as often in the result as in the input. */
  lemma {:induction false} StripDisallowedKeepsAllowed(s: string)
    ensures forall c :: IsNameChar(c) ==> multiset(StripDisallowed(s))[c] == multiset(s)[c]
  {
    if s != [] {
      StripDisallowedKeepsAllowed(s[1..]);
      assert s == [s[0]] + s[1..];
    }
  }

  /** The filter works character by character, so it keeps the order of what it keeps. */
  lemma {:induction false} StripDisallowedAppend(a: string, b: string)
    ensures StripDisallowed(a + b) == StripDisallowed(a) + StripDisallowed(b)
  {
    if a == [] {
      assert a + b == b;
    } else {
      var ab := a + b;
      var head := if IsNameChar(a[0]) then [a[0]] else [];
      assert ab[0] == a[0] && ab[1..] == a[1..] + b;
      calc {
        StripDisallowed(ab);
        head + StripDisallowed(a[1..] + b);
        { StripDisallowedAppend(a[1..], b); }
        head + (StripDisallowed(a[1..]) + StripDisallowed(b));
        (head + StripDisallowed(a[1..])) + StripDisallowed(b);
        StripDisallowed(a) + StripDisallowed(b);
      }
    }
  }

  lemma {:induction false} StripDisallowedEmptyIff(s: string)
    ensures StripDisallowed(s) == [] <==> forall i :: 0 <= i < |s| ==> !IsNameChar(s[i])
  {
    if s != [] {
      StripDisallowedEmptyIff(s[1..]);
      assert forall i :: 1 <= i < |s| ==> s[i] == s[1..][i - 1];
    }
  }

  const Placeholder: string := "unknown-character"

  lemma PlaceholderIsClean()
    ensures IsCleanName(Placeholder)
  {
    forall i | 0 <= i < |Placeholder| ensures IsNameChar(Placeholder[i]) {
      assert Placeholder[i] in "abcdefghijklmnopqrstuvwxyz-";
    }
  }

  /** The placeholder is itself a clean name, so filtering it changes nothing. */
  lemma PlaceholderSurvivesFilter()
    ensures StripDisallowed(Placeholder) == Placeholder
  {
    PlaceholderIsClean();
  }

  /**
   * sanitizeName: a missing or empty name becomes the placeholder, and the
   * result is then filtered; the placeholder passes the filter unchanged
   * (PlaceholderSurvivesFilter), so it is returned as it is.
   */
  function SanitizeName(name: Option<string>): (r: string)
    ensures IsCleanName(r)
    ensures (name.None? || name.value == []) ==> r == Placeholder
    ensures name.Some? && name.value != [] && IsCleanName(name.value) ==> r == name.value
  {
    PlaceholderIsClean();
    if name.None? || name.value == [] then Placeholder else StripDisallowed(name.value)
  }

  /**
   * The placeholder is substituted only before filtering, so a non-empty name
   * made only of disallowed characters sanitises to the empty string.
   */
  lemma SanitizeNameEmptyIff(name: Option<string>)
    ensures SanitizeName(name) == [] <==>
            name.Some? && name.value != [] && forall i :: 0 <= i < |name.value| ==> !IsNameChar(name.value[i])
  {
    if name.Some? && name.value != [] {
      StripDisallowedEmptyIff(name.value);
    }
  }

  /** Sanitising a sanitised name changes nothing, except that an empty result becomes the placeholder. */
  lemma SanitizeNameTwice(name: Option<string>)
    ensures SanitizeName(Some(SanitizeName(name))) == SanitizeName(name) <==> SanitizeName(name) != []
  {
  }

  const DataDir: string := "data"
  const DefaultServerId: string := "0000"

  /** The game's server id as text, or the default id when it is missing or empty (index.js:146). */
  function ServerIdOrDefault(serverId: Option<string>): (r: string)
    ensures r != []
    ensures serverId.None? || serverId.value == [] ==> r == DefaultServerId
    ensures serverId.Some? && serverId.value != [] ==> r == serverId.value
  {
    if serverId.None? || serverId.value == [] then DefaultServerId else serverId.value
  }

  /** <data>/<sanitised name>-<server id>.json */
  function CharacterFile(name: Option<string>, serverId: Option<string>): (p: string)
    ensures p != []
  {
    DataDir + "/" + SanitizeName(name) + "-" + ServerIdOrDefault(serverId) + ".json"
  }

  /** <data>/<sanitised profile name>.json */
  function ProfileFile(profile: string): (p: string)
    ensures p != []
  {
    DataDir + "/" + SanitizeName(Some(profile)) + ".json"
  }

  lemma SanitizeCleanName(s: string)
    requires s != [] && IsCleanName(s)
    ensures SanitizeName(Some(s)) == s
  {
  }

  lemma JoinedIsClean(a: string, b: string)
    requires IsCleanName(a) && IsCleanName(b)
    ensures IsCleanName(a + "-" + b)
  {
    var k := a + "-" + b;
    forall i | 0 <= i < |k| ensures IsNameChar(k[i]) {
      if i < |a| { assert k[i] == a[i]; }
      else if i > |a| { assert k[i] == b[i - |a| - 1]; }
    }
  }

  /**
   * Character files and profiles share one directory: the profile named
   * "<character>-<server>" is the character's own file.
   */
  lemma ProfileCanBeCharacterFile(name: Option<string>, serverId: string)
    requires serverId != [] && IsCleanName(serverId)
    ensures ProfileFile(SanitizeName(name) + "-" + serverId) == CharacterFile(name, Some(serverId))
  {
    var n := SanitizeName(name);
    var key := n + "-" + serverId;
    JoinedIsClean(n, serverId);
    SanitizeCleanName(key);
    assert ServerIdOrDefault(Some(serverId)) == serverId;
  }
}
