/**
 * backend/app/utils/auth_utils.py: the six-digit reset code, the password
 * as it is handed to bcrypt, and the password-reset table with its expiry
 * check.  The random draw, the clock and bcrypt itself are parameters;
 * times are seconds.
 */
module Auth {
  import opened Text

  // ---------------------------------------------------------------
  // generate_code
  // ---------------------------------------------------------------

  /** A number below 10^k has at most k digits. */
  lemma {:induction false} DigitsBound(n: nat, k: nat)
    requires 1 <= k && n < Pow10(k)
    ensures |NatToString(n)| <= k
    decreases k
  {
    if n >= 10 {
      DigitsBound(n / 10, k - 1);
    }
  }

  /** Leading zeros do not change the value read. */
  lemma {:induction false} ParseNatLeadingZeros(z: string, s: string)
    requires forall i :: 0 <= i < |z| ==> z[i] == '0'
    requires AllDigits(s)
    ensures AllDigits(z + s) && ParseNat(z + s) == ParseNat(s)
    decreases |s|, |z|
  {
    if s == [] {
      assert z + s == z;
      if z != [] {
        ParseNatLeadingZeros(z[..|z| - 1], []);
        assert z[..|z| - 1] + [] == z[..|z| - 1];
      }
    } else {
      var t := z + s;
      assert t[..|t| - 1] == z + s[..|s| - 1];
      ParseNatLeadingZeros(z, s[..|s| - 1]);
    }
  }

  /** `str(secrets.randbelow(1_000_000)).zfill(6)` for the drawn number `draw`. */
  function GenerateCode(draw: nat): (code: string)
    requires draw < 1000000
    ensures |code| == 6 && AllDigits(code)
    ensures ParseNat(code) == draw
  {
    var s := NatToString(draw);
    assert Pow10(6) == 1000000;
    DigitsBound(draw, 6);
    var code := ZFill(s, 6);
    assert code == code[..|code| - |s|] + s;
    ParseNatToString(draw);
    ParseNatLeadingZeros(code[..|code| - |s|], s);
    code
  }

  /** Different draws give different codes. */
  lemma CodesDistinct(a: nat, b: nat)
    requires a < 1000000 && b < 1000000 && a != b
    ensures GenerateCode(a) != GenerateCode(b)
  {
    assert ParseNat(GenerateCode(a)) == a;
  }

  // ---------------------------------------------------------------
  // hash_password
  // ---------------------------------------------------------------

  /** The number of bytes one character takes in UTF-8. */
  function Utf8Len(c: char): (n: nat)
    ensures 1 <= n <= 4
  {
    if c as int < 0x80 then 1 else if c as int < 0x800 then 2 else if c as int < 0x10000 then 3 else 4
  }

  /** `len(s.encode("utf-8"))` */
  function Utf8Length(s: string): (n: nat)
    ensures |s| <= n
  {
    if s == [] then 0 else Utf8Len(s[0]) + Utf8Length(s[1..])
  }

  const BcryptLimit := 72

  /** What the code hands to bcrypt: more than 72 bytes are cut to the first 72 characters. */
  function BcryptInputAsWritten(password: string): (p: string)
    ensures |p| <= |password| && p == password[..|p|]
    ensures Utf8Length(password) <= BcryptLimit ==> p == password
  {
    if Utf8Length(password) > BcryptLimit then Take(password, BcryptLimit) else password
  }

  /** A run of `n` copies of one character takes `n` times its size. */
  lemma {:induction false} Utf8LengthRepeat(c: char, n: nat)
    ensures Utf8Length(seq(n, _ => c)) == n * Utf8Len(c)
    decreases n
  {
    if n > 0 {
      assert seq(n, _ => c)[1..] == seq(n - 1, _ => c);
      Utf8LengthRepeat(c, n - 1);
    }
  }

  /** 37 copies of "é" are 74 bytes, and cutting at 72 characters leaves all 74 of them. */
  lemma MultiByteStaysTooLong()
    ensures var p := seq(37, _ => 'é');
      Utf8Length(p) == 74 && Utf8Length(BcryptInputAsWritten(p)) > BcryptLimit
  {
    var p := seq(37, _ => 'é');
    Utf8LengthRepeat('é', 37);
    assert BcryptInputAsWritten(p) == p;
  }

  /** The longest prefix of `password` that fits in `limit` bytes. */
  function TruncateBytes(password: string, limit: nat): (p: string)
    ensures |p| <= |password| && p == password[..|p|]
    ensures Utf8Length(p) <= limit
    ensures |p| < |password| ==> Utf8Length(password[..|p| + 1]) > limit
    ensures Utf8Length(password) <= limit ==> p == password
  {
    if password == [] then []
    else if Utf8Len(password[0]) > limit then
      assert password[..1][1..] == [];
      PrefixUtf8(password, 1);
      []
    else
      var c := password[0];
      var rest := TruncateBytes(password[1..], limit - Utf8Len(c));
      var p := [c] + rest;
      assert p[1..] == rest;
      assert |p| < |password| ==> password[..|p| + 1][1..] == password[1..][..|rest| + 1];
      assert password == [c] + password[1..];
      p
  }

  /** Splitting off the first character of a prefix. */
  lemma PrefixUtf8(s: string, k: nat)
    requires 1 <= k <= |s|
    ensures Utf8Length(s[..k]) == Utf8Len(s[0]) + Utf8Length(s[1..][..k - 1])
  {
    assert s[..k][1..] == s[1..][..k - 1];
  }

  /** bcrypt's input with the 72-byte limit the comment describes, whatever the characters. */
  function BcryptInput(password: string): (p: string)
    ensures |p| <= |password| && p == password[..|p|] && Utf8Length(p) <= BcryptLimit
    ensures Utf8Length(password) <= BcryptLimit ==> p == password
  {
    TruncateBytes(password, BcryptLimit)
  }

  /** Both agree whenever every character is one byte. */
  lemma {:induction false} AsciiInputsAgree(password: string)
    ensures (forall i :: 0 <= i < |password| ==> password[i] as int < 0x80) ==>
      BcryptInputAsWritten(password) == BcryptInput(password)
  {
    if forall i :: 0 <= i < |password| ==> password[i] as int < 0x80 {
      AsciiLength(password);
      if Utf8Length(password) > BcryptLimit {
        var t := Take(password, BcryptLimit);
        AsciiLength(t);
        AsciiLength(BcryptInput(password));
        var p := BcryptInput(password);
        if |p| < BcryptLimit {
          AsciiLength(password[..|p| + 1]);
        }
      }
    }
  }

  /** An ASCII string has one byte per character. */
  lemma {:induction false} AsciiLength(s: string)
    requires forall i :: 0 <= i < |s| ==> s[i] as int < 0x80
    ensures Utf8Length(s) == |s|
    decreases |s|
  {
    if s != [] {
      AsciiLength(s[1..]);
    }
  }

  /**
   * `hash_password` as written: a password over 72 bytes is cut to its first
   * 72 characters before bcrypt, the parameter, hashes it.
   */
  function HashPasswordAsWritten(password: string, bcrypt: string -> string): (r: string)
    ensures Utf8Length(password) <= BcryptLimit ==> r == bcrypt(password)
    ensures Utf8Length(password) > BcryptLimit ==> r == bcrypt(Take(password, BcryptLimit))
  {
    bcrypt(BcryptInputAsWritten(password))
  }

  /**
   * The corrected `hash_password`: bcrypt gets the longest prefix of the
   * password that fits in 72 bytes.
   */
  function HashPassword(password: string, bcrypt: string -> string): (r: string)
    ensures Utf8Length(password) <= BcryptLimit ==> r == bcrypt(password)
    ensures (forall i :: 0 <= i < |password| ==> password[i] as int < 0x80) ==> r == HashPasswordAsWritten(password, bcrypt)
  {
    AsciiInputsAgree(password);
    bcrypt(BcryptInput(password))
  }

  /**
   * For 37 copies of "é" (74 bytes) the code as written hashes all 37
   * characters, while the corrected hash takes the first 36, which fill 72 bytes.
   */
  lemma HashCutsDiffer(bcrypt: string -> string)
    ensures var p := seq(37, _ => 'é');
      && HashPasswordAsWritten(p, bcrypt) == bcrypt(p)
      && HashPassword(p, bcrypt) == bcrypt(p[..36])
  {
    var p := seq(37, _ => 'é');
    MultiByteStaysTooLong();
    assert Take(p, BcryptLimit) == p;
    var q := BcryptInput(p);
    assert q == p[..|q|];
    assert p[..|q|] == seq(|q|, _ => 'é');
    Utf8LengthRepeat('é', |q|);
    assert |q| < |p|;
    assert p[..|q| + 1] == seq(|q| + 1, _ => 'é');
    Utf8LengthRepeat('é', |q| + 1);
    assert |q| == 36;
  }

  // ---------------------------------------------------------------
  // password_resets
  // ---------------------------------------------------------------

  datatype ResetEntry = ResetEntry(code: string, expiresAt: int)

  const DefaultTtlMinutes := 10

  /** `verify_code`: an entry exists, its code equals the input, and it expires strictly after now. */
  function VerifyCode(entries: map<string, ResetEntry>, email: string, code: string, now: int): (r: bool)
    ensures email !in entries ==> !r
    ensures email in entries ==> (r <==> entries[email].code == code && now < entries[email].expiresAt)
  {
    email in entries && entries[email].code == code && entries[email].expiresAt > now
  }

  /** The reset table, one row per email (`ON CONFLICT (email) DO UPDATE`). */
  class ResetTable {
    var entries: map<string, ResetEntry>

    constructor ()
      ensures entries == map[]
    {
      entries := map[];
    }

    /** `create_reset_entry`: insert, or replace the code and expiry of, the email's row. */
    method CreateResetEntry(email: string, code: string, now: int, ttlMinutes: int)
      modifies this
      ensures entries == old(entries)[email := ResetEntry(code, now + ttlMinutes * 60)]
    {
      entries := entries[email := ResetEntry(code, now + ttlMinutes * 60)];
    }
  }

  /**
   * After a (re-)request the new code is accepted until the expiry and no
   * later, any other code for that email is refused, and other emails are
   * untouched.
   */
  lemma ResetThenVerify(entries: map<string, ResetEntry>, email: string, code: string, now: int, ttlMinutes: int,
                        other: string, guess: string, t: int)
    ensures var e := entries[email := ResetEntry(code, now + ttlMinutes * 60)];
      && (VerifyCode(e, email, code, t) <==> t < now + ttlMinutes * 60)
      && (guess != code ==> !VerifyCode(e, email, guess, t))
      && (other != email ==> VerifyCode(e, other, guess, t) == VerifyCode(entries, other, guess, t))
  {
  }

  /** With the default ten minutes a fresh code is accepted for the next 600 seconds. */
  lemma DefaultWindow(entries: map<string, ResetEntry>, email: string, code: string, now: int, t: int)
    requires now <= t
    ensures VerifyCode(entries[email := ResetEntry(code, now + DefaultTtlMinutes * 60)], email, code, t) <==> t < now + 600
  {
  }
}
