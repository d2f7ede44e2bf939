/**
 * The page header's user badge: the name shown for the signed-in user and
 * the initials in its avatar.  The name comes from the identity provider's
 * parsed token, falling back from the full name to the preferred user name,
 * to the part of the e-mail address before the `@`, and finally to a fixed
 * word that depends on whether the application runs in development mode.
 */
module Header {
  import opened Wrappers
  import opened JsText
  import opened Lists

  /** The claims of the parsed token the header reads; an absent claim is `None`. */
  datatype Token = Token(name: Option<string>, preferredUsername: Option<string>, email: Option<string>)

  /** A claim JavaScript treats as true: present and not empty. */
  predicate Truthy(claim: Option<string>) {
    claim.Some? && claim.value != []
  }

  /** `email.split('@')[0]`. */
  function EmailUser(email: string): (r: string)
    ensures '@' !in r && StartsWith(email, r)
    ensures r == email || email[|r|] == '@'
  {
    FirstPieceSpec(email, '@');
    Split(email, '@')[0]
  }

  /** `getUserDisplayName`; `token` is `keycloak?.tokenParsed`, absent when there is no session. */
  function DisplayName(token: Option<Token>, dev: bool): string {
    if token.Some? && Truthy(token.value.name) then token.value.name.value
    else if token.Some? && Truthy(token.value.preferredUsername) then token.value.preferredUsername.value
    else if token.Some? && Truthy(token.value.email) then EmailUser(token.value.email.value)
    else if dev then "Developer" else "User"
  }

  /** The first claim that is set wins; without any the fallback word is shown, and an e-mail address
      contributes only what stands before its first `@`. */
  lemma DisplayNameChoice(token: Option<Token>, dev: bool)
    ensures token.None? ==> DisplayName(token, dev) == (if dev then "Developer" else "User")
    ensures token.Some? && Truthy(token.value.name) ==> DisplayName(token, dev) == token.value.name.value
    ensures token.Some? && !Truthy(token.value.name) && Truthy(token.value.preferredUsername) ==>
              DisplayName(token, dev) == token.value.preferredUsername.value
    ensures token.Some? && !Truthy(token.value.name) && !Truthy(token.value.preferredUsername) && Truthy(token.value.email) ==>
              var r := DisplayName(token, dev);
              '@' !in r && StartsWith(token.value.email.value, r)
    ensures token.Some? && !Truthy(token.value.name) && !Truthy(token.value.preferredUsername) && Truthy(token.value.email) ==>
              DisplayName(token, dev) == EmailUser(token.value.email.value)
    ensures token.Some? && !Truthy(token.value.name) && !Truthy(token.value.preferredUsername) && !Truthy(token.value.email) ==>
              DisplayName(token, dev) == (if dev then "Developer" else "User")
    ensures DisplayName(token, dev) == [] ==>
              token.Some? && !Truthy(token.value.name) && !Truthy(token.value.preferredUsername)
              && Truthy(token.value.email) && token.value.email.value[0] == '@'
  {
  }

  /** `word.charAt(0)`: the first character, or nothing for an empty word. */
  function FirstChar(word: string): (r: string)
    ensures |r| <= 1
  {
    if word == [] then [] else [word[0]]
  }

  /** `s.slice(0, n)`. */
  function Prefix(s: string, n: nat): (r: string)
    ensures |r| <= n && |r| <= |s| && StartsWith(s, r)
    ensures |s| <= n ==> r == s
  {
    if |s| <= n then s else s[..n]
  }

  /** `getUserInitials`: the first character of every space-separated word, joined, upper-cased and cut
      to two characters. */
  function Initials(name: string): (r: string)
    ensures |r| <= 2
  {
    Prefix(ToUpper(Join(Map(Split(name, ' '), FirstChar), "")), 2)
  }

  /** The characters that begin a word: those that are not a space and follow a space or the start of
      the text (`atStart`). */
  function WordStarts(s: string, atStart: bool): (r: string)
    ensures ' ' !in r
  {
    if s == [] then []
    else if s[0] == ' ' then WordStarts(s[1..], true)
    else (if atStart then [s[0]] else []) + WordStarts(s[1..], false)
  }

  lemma {:induction false} JoinNoSeparator(xs: seq<string>)
    requires xs != []
    ensures Join(xs, "") == xs[0] + Join(xs[1..], "")
  {
    if |xs| == 1 {
      assert xs[1..] == [];
    }
  }

  /** Joining the first characters of the pieces of a split at spaces gives the word starts; the
      pieces after the first give the word starts after the first character. */
  lemma {:induction false} FirstCharsAreWordStarts(s: string)
    ensures Join(Map(Split(s, ' '), FirstChar), "") == WordStarts(s, true)
    ensures Join(Map(Split(s, ' ')[1..], FirstChar), "") == WordStarts(s, false)
  {
    if s != [] {
      var t := s[1..];
      var rest := Split(t, ' ');
      FirstCharsAreWordStarts(t);
      var firsts := Map(Split(s, ' '), FirstChar);
      JoinNoSeparator(firsts);
      if s[0] == ' ' {
        assert Split(s, ' ') == [[]] + rest;
        assert Split(s, ' ')[1..] == rest;
        assert firsts[1..] == Map(rest, FirstChar);
      } else {
        assert Split(s, ' ') == [[s[0]] + rest[0]] + rest[1..];
        assert Split(s, ' ')[1..] == rest[1..];
        assert firsts[0] == [s[0]];
        assert firsts[1..] == Map(rest[1..], FirstChar);
      }
    }
  }

  /** The initials are the upper-cased first characters of the words, at most two; runs of spaces
      add nothing and a name without words has no initials. */
  lemma InitialsSpec(name: string)
    ensures Initials(name) == Prefix(ToUpper(WordStarts(name, true)), 2)
    ensures ' ' !in Initials(name)
    ensures WordStarts(name, true) == [] ==> Initials(name) == []
  {
    FirstCharsAreWordStarts(name);
    var u := ToUpper(WordStarts(name, true));
    forall k | 0 <= k < |u| ensures u[k] != ' ' {
      assert WordStarts(name, true)[k] in WordStarts(name, true);
    }
  }

  /** Doubling a space between two words leaves the initials as they were. */
  lemma {:induction false} DoubledSpaceSameInitials(a: string, b: string)
    ensures Initials(a + " " + b) == Initials(a + "  " + b)
  {
    InitialsSpec(a + " " + b);
    InitialsSpec(a + "  " + b);
    Assoc(a, " ", b);
    Assoc(a, "  ", b);
    SpacedTails(b);
    WordStartsAfterSpaces(a, " " + b, "  " + b, true);
  }

  /** One space or two before `b` make no difference to the word starts. */
  lemma SpacedTails(b: string)
    ensures WordStarts("  " + b, false) == WordStarts(" " + b, false)
  {
    var x := " " + b;
    var y := "  " + b;
    assert x[1..] == b && y[1..] == x;
    assert WordStarts(y, false) == WordStarts(x, true) == WordStarts(b, true) == WordStarts(x, false);
  }

  /** Word starts of a text followed by one of two tails that start with a space and agree on their
      word starts. */
  lemma {:induction false} WordStartsAfterSpaces(a: string, x: string, y: string, atStart: bool)
    requires x != [] && y != [] && x[0] == ' ' && y[0] == ' ' && WordStarts(x, false) == WordStarts(y, false)
    ensures WordStarts(a + x, atStart) == WordStarts(a + y, atStart)
  {
    if a == [] {
      assert a + x == x && a + y == y;
      assert WordStarts(x, atStart) == WordStarts(x[1..], true) == WordStarts(x, false);
      assert WordStarts(y, atStart) == WordStarts(y[1..], true) == WordStarts(y, false);
    } else {
      assert (a + x)[0] == a[0] && (a + x)[1..] == a[1..] + x;
      assert (a + y)[0] == a[0] && (a + y)[1..] == a[1..] + y;
      WordStartsAfterSpaces(a[1..], x, y, true);
      WordStartsAfterSpaces(a[1..], x, y, false);
    }
  }
}
