/** `getPasswordHash`: the base64 text of the password's MD5 digest with its
    trailing `=` padding removed. MD5 (RFC 1321) and base64 (section 4 of RFC 4648)
    are not modelled: the composed encoder is the `md5Base64` parameter. */
module PasswordHash {

  predicate EndsWithPad(s: string) {
    |s| > 0 && s[|s| - 1] == '='
  }

  /** r is d with its trailing run of `=` removed: a prefix of d, not ending in `=`,
      with only `=` after it. */
  predicate IsStripOf(r: string, d: string) {
    && r <= d
    && !EndsWithPad(r)
    && forall i :: |r| <= i < |d| ==> d[i] == '='
  }

  /** Reference definition: drop one trailing `=` at a time. */
  function StripPadding(s: string): string
    decreases |s|
  {
    if EndsWithPad(s) then StripPadding(s[..|s| - 1]) else s
  }

  lemma {:induction false} StripPaddingIsStrip(d: string)
    ensures IsStripOf(StripPadding(d), d)
    decreases |d|
  {
    if EndsWithPad(d) {
      var d' := d[..|d| - 1];
      StripPaddingIsStrip(d');
      var r := StripPadding(d');
      assert r <= d' && d' <= d;
      forall i | |r| <= i < |d| ensures d[i] == '=' {
        if i < |d| - 1 {
          assert d[i] == d'[i];
        }
      }
    }
  }

  /** Only one string is a strip of d, so the three properties pin the result down. */
  lemma StripUnique(r: string, d: string)
    requires IsStripOf(r, d)
    ensures r == StripPadding(d)
  {
  }

  /** `getPasswordHash(password)`. */
  method GetPasswordHash(password: string, md5Base64: string -> string) returns (hash: string)
    ensures IsStripOf(hash, md5Base64(password))
    ensures hash == StripPadding(md5Base64(password))
  {
    ghost var digest := md5Base64(password);
    hash := md5Base64(password);
    while EndsWithPad(hash)
      invariant hash <= digest
      invariant forall i :: |hash| <= i < |digest| ==> digest[i] == '='
      decreases |hash|
    {
      hash := hash[..|hash| - 1];
    }
    StripUnique(hash, digest);
  }

  /** An MD5 digest is 16 bytes, which base64 writes as 22 data characters (none of
      them `=`) and two `=`; the hash sent to the service is the 22 data characters. */
  lemma Md5DigestHash(d: string)
    requires |d| == 24 && d[22] == '=' && d[23] == '='
    requires forall i :: 0 <= i < 22 ==> d[i] != '='
    ensures StripPadding(d) == d[..22]
    ensures |StripPadding(d)| == 22
  {
    StripUnique(d[..22], d);
  }
}
