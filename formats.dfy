/** The field formats the ledger accepts (the Ruby regular expressions of app.rb),
    ASCII lower-casing of a hash, and the leading-zero count that measures
    proof of work. */
module Formats {

  predicate IsDigit(c: char) { '0' <= c <= '9' }

  predicate IsHexDigit(c: char) { IsDigit(c) || 'a' <= c <= 'f' || 'A' <= c <= 'F' }

  predicate IsLowerHexDigit(c: char) { IsDigit(c) || 'a' <= c <= 'f' }

  predicate IsAlnum(c: char) { IsDigit(c) || 'a' <= c <= 'z' || 'A' <= c <= 'Z' }

  /** One character of `[-_0-9a-zA-Z]`. */
  predicate IsNameChar(c: char) { IsAlnum(c) || c == '-' || c == '_' }

  /** `\A[0-9a-fA-F]{64}\z`: the accepted form of a parent hash. */
  predicate IsHash(s: string) {
    |s| == 64 && forall i :: 0 <= i < |s| ==> IsHexDigit(s[i])
  }

  /** `\A[0-9a-f]{64}\z`: the accepted form of a queried block hash. */
  predicate IsLowerHash(s: string) {
    |s| == 64 && forall i :: 0 <= i < |s| ==> IsLowerHexDigit(s[i])
  }

  /** `\A[0-9a-zA-Z]{,64}\z`: the accepted form of a nonce. */
  predicate IsNonce(s: string) {
    |s| <= 64 && forall i :: 0 <= i < |s| ==> IsAlnum(s[i])
  }

  /** `\A[-_0-9a-zA-Z]{,64}\z`: the accepted form of a user name (miner,
      sender, receiver, registered user). */
  predicate IsName(s: string) {
    |s| <= 64 && forall i :: 0 <= i < |s| ==> IsNameChar(s[i])
  }

  function LowerChar(c: char): char {
    if 'A' <= c <= 'Z' then (c as int - 'A' as int + 'a' as int) as char else c
  }

  /** Ruby's `downcase`, restricted to ASCII letters. */
  function Downcase(s: string): (r: string)
    ensures |r| == |s|
    ensures forall i :: 0 <= i < |r| ==> !('A' <= r[i] <= 'Z')
    ensures forall i :: 0 <= i < |r| ==>
      r[i] == s[i] || ('A' <= s[i] <= 'Z' && r[i] as int == s[i] as int + 32)
  {
    seq(|s|, i requires 0 <= i < |s| => LowerChar(s[i]))
  }

  /** Lower-casing never changes whether a string is a hash, always yields the
      lower-case form, and leaves an already lower-case hash alone. */
  lemma DowncaseHash(s: string)
    ensures IsHash(Downcase(s)) <==> IsHash(s)
    ensures IsHash(s) ==> IsLowerHash(Downcase(s))
    ensures IsLowerHash(s) ==> Downcase(s) == s
  {
    var d := Downcase(s);
    if IsHash(d) {
      forall i | 0 <= i < |s| ensures IsHexDigit(s[i]) {
        assert IsHexDigit(d[i]);
      }
    }
  }

  /** The length of the match of `\A0+` (zero when there is none): the
      difficulty a block hash achieves. It is the length of the maximal run of
      '0' at the start of `s`. */
  function LeadingZeros(s: string): (n: nat)
    ensures n <= |s|
    ensures forall i :: 0 <= i < n ==> s[i] == '0'
    ensures n < |s| ==> s[n] != '0'
  {
    if |s| > 0 && s[0] == '0' then 1 + LeadingZeros(s[1..]) else 0
  }

  /** The count is determined by the hash: any length with the two properties
      above is the count, so a hash meets difficulty `d` exactly when its first
      `d` characters are all '0'. */
  lemma LeadingZerosMeets(s: string, d: int)
    ensures LeadingZeros(s) >= d <==> d <= |s| && forall i :: 0 <= i < d ==> s[i] == '0'
  {
  }
}
