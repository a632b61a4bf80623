/** cmd/validation_params.go and cmd/validation_funcs.go: the client-ID rule.
    A client ID is taken as the bytes of its Go string, since Go's `len`
    counts bytes. */
module Validation {
  import opened Wrappers

  const ClientIdMinLen: nat := 1
  const ClientIdMaxLen: nat := 100

  /** The inside of the bracket expression of `^[a-zA-Z0-9-@._]*$`. */
  const ClientIdClass: string := "a-zA-Z0-9-@._"

  /** The single error every failed check returns. */
  const ErrClientID: string :=
    "a client id should be between 1 and 100 chars, and should match regex ^[" + ClientIdClass + "]*$"

  /** One item of a bracket expression. */
  datatype ClassItem = Single(c: char) | Range(lo: char, hi: char)

  /** Splits the inside of a bracket expression without escapes into items
      as Go's regexp parser does in its Perl mode: a character followed by '-'
      and one more character is a range; any other character, a '-' after a
      range included, stands for itself. */
  function ParseClass(s: string): seq<ClassItem>
  {
    if s == [] then []
    else if |s| >= 3 && s[1] == '-' then [Range(s[0], s[2])] + ParseClass(s[3..])
    else [Single(s[0])] + ParseClass(s[1..])
  }

  predicate ItemMatches(item: ClassItem, c: char)
  {
    match item
    case Single(x) => c == x
    case Range(lo, hi) => lo <= c <= hi
  }

  predicate InClass(c: char, items: seq<ClassItem>)
  {
    items != [] && (ItemMatches(items[0], c) || InClass(c, items[1..]))
  }

  /** ASCII letters, digits, '-', '@', '.' and '_'. */
  predicate IsClientIdChar(c: char)
  {
    'a' <= c <= 'z' || 'A' <= c <= 'Z' || '0' <= c <= '9' || c == '-' || c == '@' || c == '.' || c == '_'
  }

  /** The bracket expression parses into the three ranges and four literals;
      the '-' after `0-9` is a literal. */
  lemma ClientIdClassItems()
    ensures ParseClass(ClientIdClass) ==
              [Range('a', 'z'), Range('A', 'Z'), Range('0', '9'), Single('-'), Single('@'), Single('.'), Single('_')]
  {
  }

  /** The character class admits exactly the client-ID characters. */
  lemma ClientIdClassIsExact(c: char)
    ensures InClass(c, ParseClass(ClientIdClass)) <==> IsClientIdChar(c)
  {
    ClientIdClassItems();
    var i0 := ParseClass(ClientIdClass);
    var i1, i2, i3 := i0[1..], i0[2..], i0[3..];
    var i4, i5, i6, i7 := i0[4..], i0[5..], i0[6..], i0[7..];
    assert i1 == i0[1..] && i2 == i1[1..] && i3 == i2[1..] && i4 == i3[1..];
    assert i5 == i4[1..] && i6 == i5[1..] && i7 == i6[1..] && i7 == [];
    assert InClass(c, i6) <==> c == '_';
    assert InClass(c, i5) <==> c == '.' || c == '_';
    assert InClass(c, i4) <==> c == '@' || c == '.' || c == '_';
    assert InClass(c, i3) <==> c == '-' || c == '@' || c == '.' || c == '_';
    assert InClass(c, i2) <==> '0' <= c <= '9' || InClass(c, i3);
    assert InClass(c, i1) <==> 'A' <= c <= 'Z' || InClass(c, i2);
  }

  /** A byte the pattern accepts: an ASCII character of the class. A byte of
      128 or more belongs to a non-ASCII or ill-formed rune, never in the class. */
  predicate IsClientIdByte(b: uint8)
  {
    b < 128 && IsClientIdChar(b as char)
  }

  /** `^[…]*$`: the whole input is a repetition, possibly empty, of class members. */
  predicate MatchesClientIdPattern(id: seq<uint8>)
  {
    id == [] || (IsClientIdByte(id[0]) && MatchesClientIdPattern(id[1..]))
  }

  /** The anchored starred pattern matches exactly the inputs whose every byte
      is in the class. */
  lemma {:induction false} PatternMatchesAllBytes(id: seq<uint8>)
    ensures MatchesClientIdPattern(id) <==> forall i :: 0 <= i < |id| ==> IsClientIdByte(id[i])
  {
    if id != [] {
      PatternMatchesAllBytes(id[1..]);
      assert forall i :: 1 <= i < |id| ==> id[i] == id[1..][i - 1];
    }
  }

  /** Checks a client ID: nil when it is valid, errClientID otherwise. */
  function CheckClientID(clientId: seq<uint8>): (r: Option<string>)
    ensures r.None? <==> ClientIdMinLen <= |clientId| <= ClientIdMaxLen &&
                         forall i :: 0 <= i < |clientId| ==> IsClientIdByte(clientId[i])
    ensures r.Some? ==> r.value == ErrClientID
  {
    PatternMatchesAllBytes(clientId);
    if |clientId| < ClientIdMinLen || |clientId| > ClientIdMaxLen then Some(ErrClientID)
    else if !MatchesClientIdPattern(clientId) then Some(ErrClientID)
    else None
  }

  /** The pattern alone accepts the empty ID; only the length bound rejects it. */
  lemma EmptyRejectedOnlyByLength()
    ensures MatchesClientIdPattern([])
    ensures CheckClientID([]) == Some(ErrClientID)
  {
  }

  /** An ID outside the length bounds is rejected whatever its bytes. */
  lemma OutOfBoundsRejected(clientId: seq<uint8>)
    requires |clientId| < ClientIdMinLen || |clientId| > ClientIdMaxLen
    ensures CheckClientID(clientId) == Some(ErrClientID)
  {
  }

  /** An ID with a byte outside the class, a non-ASCII byte in particular, is
      rejected whatever its length. */
  lemma DisallowedByteRejected(clientId: seq<uint8>, i: nat)
    requires i < |clientId| && (clientId[i] >= 128 || !IsClientIdChar(clientId[i] as char))
    ensures CheckClientID(clientId) == Some(ErrClientID)
  {
  }
}
