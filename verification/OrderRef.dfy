/** The order-reference search `\b(ord-[a-z0-9]+)\b`, ignoring case, of the reply worker. */
module OrderRef {
  import opened Prelude

  /** `[a-z0-9]` under IGNORECASE: ASCII letters and digits and the four letters that fold into them. */
  predicate IsOrderChar(c: char)
  {
    '0' <= c <= '9' || 'a' <= c <= 'z' || 'A' <= c <= 'Z'
    || c as int == 0x130 || c as int == 0x131 || c as int == 0x17f || c as int == 0x212a
  }

  /** Of the ASCII characters these are the digits and the letters, in either case. */
  lemma CaseIsIgnored(c: char)
    requires c as int < 128
    ensures IsOrderChar(c) <==> 48 <= c as int <= 57 || 65 <= c as int <= 90 || 97 <= c as int <= 122
    ensures 'A' <= c <= 'Z' ==> IsOrderChar(c) == IsOrderChar((c as int + 32) as char)
  {}

  /** `\w`; the word characters beyond ASCII are a parameter. */
  predicate IsWord(c: char, unicodeWord: char -> bool)
  {
    IsOrderChar(c) || c == '_' || (c as int >= 128 && unicodeWord(c))
  }

  predicate IsOrd(s: string, i: nat)
  {
    i + 4 <= |s| && s[i] in "oO" && s[i + 1] in "rR" && s[i + 2] in "dD" && s[i + 3] == '-'
  }

  /** The pattern matches s[i..j]: a word boundary, `ord-`, at least one letter or digit, a word boundary. */
  predicate Matches(s: string, i: nat, j: nat, w: char -> bool)
  {
    && i + 5 <= j <= |s| && s[i] in "oO" && s[i + 1] in "rR" && s[i + 2] in "dD" && s[i + 3] == '-'
    && (i == 0 || !IsWord(s[i - 1], w))
    && (forall k :: i + 4 <= k < j ==> IsOrderChar(s[k]))
    && (j == |s| || !IsWord(s[j], w))
  }

  /** The end of the run of letters and digits that starts at k. */
  function RunEnd(s: string, k: nat): (e: nat)
    requires k <= |s|
    ensures k <= e <= |s|
    ensures forall m :: k <= m < e ==> IsOrderChar(s[m])
    ensures e == |s| || !IsOrderChar(s[e])
    decreases |s| - k
  {
    if k < |s| && IsOrderChar(s[k]) then RunEnd(s, k + 1) else k
  }

  function MatchAt(s: string, i: nat, w: char -> bool): Option<nat>
  {
    if IsOrd(s, i) && (i == 0 || !IsWord(s[i - 1], w)) then
      var j := RunEnd(s, i + 4);
      if j > i + 4 && (j == |s| || !IsWord(s[j], w)) then Some(j) else None
    else None
  }

  /** The leftmost match at or after i. */
  function SearchFrom(s: string, i: nat, w: char -> bool): Option<(nat, nat)>
    decreases |s| - i
  {
    if i >= |s| then None
    else match MatchAt(s, i, w)
         case Some(j) => Some((i, j))
         case None => SearchFrom(s, i + 1, w)
  }

  function Search(s: string, w: char -> bool): Option<(nat, nat)>
  {
    SearchFrom(s, 0, w)
  }

  /** At a given start the closing boundary forces the whole run: there is one match or none. */
  lemma MatchAtIsTheOnlyMatch(s: string, i: nat, j: nat, w: char -> bool)
    ensures MatchAt(s, i, w) == Some(j) <==> Matches(s, i, j, w)
  {
    if Matches(s, i, j, w) {
      assert RunEnd(s, i + 4) == j;
    }
  }

  lemma {:induction false} SearchFromFindsLeftmost(s: string, i: nat, w: char -> bool)
    ensures SearchFrom(s, i, w).None? ==> forall a: nat, b: nat :: a >= i ==> !Matches(s, a, b, w)
    ensures SearchFrom(s, i, w).Some? ==>
              var (a, b) := SearchFrom(s, i, w).value;
              a >= i && Matches(s, a, b, w) && forall c: nat, d: nat :: i <= c < a ==> !Matches(s, c, d, w)
    decreases |s| - i
  {
    if i < |s| {
      forall j: nat ensures MatchAt(s, i, w) == Some(j) <==> Matches(s, i, j, w) { MatchAtIsTheOnlyMatch(s, i, j, w); }
      if MatchAt(s, i, w).None? { SearchFromFindsLeftmost(s, i + 1, w); }
    }
  }

  /** The search answers exactly when the pattern matches somewhere, and then with the leftmost match. */
  lemma SearchFindsLeftmostMatch(s: string, w: char -> bool)
    ensures Search(s, w).None? <==> forall a: nat, b: nat :: !Matches(s, a, b, w)
    ensures Search(s, w).Some? ==>
              var (a, b) := Search(s, w).value;
              Matches(s, a, b, w) && forall c: nat, d: nat :: c < a ==> !Matches(s, c, d, w)
  {
    SearchFromFindsLeftmost(s, 0, w);
  }
}
