/**
  The credential generator of the seamless sign-up (utils/auth-helpers.ts).

  The secure random source is not modelled: each generator takes the bytes
  that `Crypto.getRandomBytesAsync(n)` would have produced, as a sequence of
  exactly `n` values in 0..255. Everything else is deterministic string work,
  and the defensive checks that throw in the source become `Failure` results
  that the contracts below prove can never be returned.
 */
module AuthHelpers {
  import opened Wrappers

  /** One element of the `Uint8Array` returned by the random source. */
  newtype byte = x: int | 0 <= x < 256

  // The alphabet literals of the source, in three pieces that together spell it.
  const Lowercase: string := "abcdefghijklmnopqrstuvwxyz"
  const Uppercase: string := "ABCDEFGHIJKLMNOPQRSTUVWXYZ"
  const DigitChars: string := "0123456789"
  const PasswordSymbols: string := "!@#$%^&*"

  /** The 62-symbol alphabet of `generateRandomString`. */
  const Alphanumerics: string := Lowercase + Uppercase + DigitChars

  /** The 70-symbol alphabet of `generatePassword`. */
  const PasswordAlphabet: string := Alphanumerics + PasswordSymbols

  const SuffixLength: nat := 8
  const MaxBaseLength: nat := 22
  const DefaultBase: string := "user"
  const FallbackBase: string := "u"
  const MinUsernameLength: nat := 3
  const MaxUsernameLength: nat := 30
  const PasswordLength: nat := 32
  const MinPasswordLength: nat := 6
  const MaxPasswordLength: nat := 200

  /** The error the defensive checks throw. */
  datatype GenerationError = GenerationError(message: string)

  /** The record persisted by the credential store. */
  datatype StoredCredentials = StoredCredentials(username: string, password: string, displayName: string)

  /** Membership in the regular-expression class `[a-zA-Z0-9]`. */
  predicate IsAlphanumeric(c: char)
  {
    ('a' <= c <= 'z') || ('A' <= c <= 'Z') || ('0' <= c <= '9')
  }

  predicate AllAlphanumeric(s: string)
  {
    forall i :: 0 <= i < |s| ==> IsAlphanumeric(s[i])
  }

  /** `/^[a-zA-Z0-9]+$/.test(s)` */
  predicate MatchesUsernamePattern(s: string)
  {
    |s| > 0 && AllAlphanumeric(s)
  }

  /** The requirement the username check enforces: 3 to 30 characters, alphanumeric only. */
  predicate IsValidUsername(s: string)
  {
    MinUsernameLength <= |s| <= MaxUsernameLength && MatchesUsernamePattern(s)
  }

  /** The requirement the password check enforces: 6 to 200 characters. */
  predicate IsValidPassword(s: string)
  {
    MinPasswordLength <= |s| <= MaxPasswordLength
  }

  function Min(a: nat, b: nat): nat
  {
    if a <= b then a else b
  }

  /** The two alphabets are the literals of the source, of 62 and 70 symbols. */
  lemma AlphabetsMatchSource()
    ensures Alphanumerics == "abcdefghijklmnopqrstuvwxyzABCDEFGHIJKLMNOPQRSTUVWXYZ0123456789"
    ensures PasswordAlphabet == "abcdefghijklmnopqrstuvwxyzABCDEFGHIJKLMNOPQRSTUVWXYZ0123456789!@#$%^&*"
    ensures |Alphanumerics| == 62 && |PasswordAlphabet| == 70
  {
  }

  /** Every symbol of the 62-symbol alphabet is in `[a-zA-Z0-9]`, and the
      password alphabet extends it with eight symbols outside that class. */
  lemma AlphabetClasses()
    ensures forall i :: 0 <= i < |Alphanumerics| ==> IsAlphanumeric(Alphanumerics[i])
    ensures forall i :: |Alphanumerics| <= i < |PasswordAlphabet| ==> !IsAlphanumeric(PasswordAlphabet[i])
  {
    assert forall i :: 0 <= i < |Lowercase| ==> 'a' <= Lowercase[i] <= 'z';
    assert forall i :: 0 <= i < |Uppercase| ==> 'A' <= Uppercase[i] <= 'Z';
    assert forall i :: 0 <= i < |DigitChars| ==> '0' <= DigitChars[i] <= '9';
    assert forall i :: 0 <= i < |PasswordSymbols| ==> !IsAlphanumeric(PasswordSymbols[i]);
  }

  /**
    `generateRandomString(length)`: the i-th character is
    `chars.charAt(randomBytes[i] % 62)`.
   */
  method GenerateRandomString(length: nat, randomBytes: seq<byte>) returns (result: string)
    requires |randomBytes| == length
    ensures |result| == length
    ensures forall i :: 0 <= i < length ==> result[i] == Alphanumerics[randomBytes[i] as int % 62]
    ensures AllAlphanumeric(result)
  {
    AlphabetClasses();
    result := "";
    var i := 0;
    while i < length
      invariant 0 <= i <= length
      invariant |result| == i
      invariant forall j :: 0 <= j < i ==> result[j] == Alphanumerics[randomBytes[j] as int % 62]
    {
      result := result + [Alphanumerics[randomBytes[i] as int % |Alphanumerics|]];
      i := i + 1;
    }
  }

  /** `displayName.replace(/[^a-zA-Z0-9]/g, "")`, scanning left to right. */
  function Sanitize(displayName: string): (sanitized: string)
    ensures AllAlphanumeric(sanitized)
    ensures |sanitized| <= |displayName|
  {
    if |displayName| == 0 then ""
    else (if IsAlphanumeric(displayName[0]) then [displayName[0]] else []) + Sanitize(displayName[1..])
  }

  /** Sanitizing distributes over concatenation: together with its effect on
      one character, this pins down what `Sanitize` keeps and in which order. */
  lemma {:induction false} SanitizeConcat(a: string, b: string)
    ensures Sanitize(a + b) == Sanitize(a) + Sanitize(b)
    decreases |a|
  {
    if |a| == 0 {
      assert a + b == b;
    } else {
      var kept := if IsAlphanumeric(a[0]) then [a[0]] else [];
      assert (a + b)[0] == a[0];
      assert (a + b)[1..] == a[1..] + b;
      SanitizeConcat(a[1..], b);
      calc {
        Sanitize(a + b);
        kept + Sanitize(a[1..] + b);
        kept + (Sanitize(a[1..]) + Sanitize(b));
        (kept + Sanitize(a[1..])) + Sanitize(b);
        Sanitize(a) + Sanitize(b);
      }
    }
  }

  /** Each alphanumeric character is kept as often as it occurs, every other character is dropped. */
  lemma {:induction false} SanitizeCounts(displayName: string, c: char)
    ensures multiset(Sanitize(displayName))[c] == if IsAlphanumeric(c) then multiset(displayName)[c] else 0
    decreases |displayName|
  {
    if |displayName| > 0 {
      SanitizeCounts(displayName[1..], c);
      assert displayName == [displayName[0]] + displayName[1..];
      assert multiset(displayName) == multiset([displayName[0]]) + multiset(displayName[1..]);
    }
  }

  /** A string is left unchanged by sanitizing exactly when it is all alphanumeric. */
  lemma {:induction false} SanitizeFixedPoints(s: string)
    ensures Sanitize(s) == s <==> AllAlphanumeric(s)
    decreases |s|
  {
    if |s| > 0 && AllAlphanumeric(s) {
      SanitizeFixedPoints(s[1..]);
      assert [s[0]] + s[1..] == s;
    }
  }

  /** Sanitizing yields the empty string exactly when no character is alphanumeric. */
  lemma {:induction false} SanitizeEmpty(s: string)
    ensures Sanitize(s) == "" <==> forall i :: 0 <= i < |s| ==> !IsAlphanumeric(s[i])
    decreases |s|
  {
    if |s| > 0 {
      SanitizeEmpty(s[1..]);
      assert forall i :: 1 <= i < |s| ==> s[i] == s[1..][i - 1];
    }
  }

  /**
    The base of `generateUsername` before its last fallback: the sanitized
    name, or `"user"` when that is empty (`sanitized || "user"`), cut to at
    most 22 characters to leave room for the suffix.
   */
  function TruncatedBase(displayName: string): (base: string)
    ensures Sanitize(displayName) == "" ==> base == DefaultBase
    ensures Sanitize(displayName) != "" ==> base == Sanitize(displayName)[..Min(|Sanitize(displayName)|, MaxBaseLength)]
    ensures 0 < |base| <= MaxBaseLength && AllAlphanumeric(base)
  {
    var sanitized := Sanitize(displayName);
    var base := if sanitized == "" then DefaultBase else sanitized;
    if |base| > MaxBaseLength then base[..MaxBaseLength] else base
  }

  /** The base of `generateUsername` as written, including the `"u"` fallback for an empty base. */
  function UsernameBase(displayName: string): string
  {
    var base := TruncatedBase(displayName);
    if |base| == 0 then FallbackBase else base
  }

  /** The `"u"` fallback is dead code: the truncated base is never empty. */
  lemma FallbackBaseUnreachable(displayName: string)
    ensures |TruncatedBase(displayName)| > 0
    ensures UsernameBase(displayName) == TruncatedBase(displayName)
  {
  }

  /** A name with no alphanumeric character, such as "" or "!!!", gets the base "user". */
  lemma NoAlphanumericsGivesDefaultBase(displayName: string)
    requires forall i :: 0 <= i < |displayName| ==> !IsAlphanumeric(displayName[i])
    ensures UsernameBase(displayName) == DefaultBase
  {
    SanitizeEmpty(displayName);
  }

  /** A purely alphanumeric name longer than 22 characters contributes its first 22. */
  lemma LongNameIsTruncated(displayName: string)
    requires AllAlphanumeric(displayName) && |displayName| > MaxBaseLength
    ensures UsernameBase(displayName) == displayName[..MaxBaseLength]
  {
    SanitizeFixedPoints(displayName);
  }

  /**
    `generateUsername(displayName)`, with the eight suffix bytes supplied.
    The defensive check never fails: the result is the base followed by the
    random suffix, 9 to 30 characters long, and entirely alphanumeric.
   */
  method GenerateUsername(displayName: string, randomBytes: seq<byte>) returns (r: Result<string, GenerationError>)
    requires |randomBytes| == SuffixLength
    ensures r.Success?
    ensures IsValidUsername(r.value)
    ensures |r.value| == Min(|if Sanitize(displayName) == "" then DefaultBase else Sanitize(displayName)|, MaxBaseLength) + SuffixLength
    ensures 9 <= |r.value| <= MaxUsernameLength
    ensures r.value[..|r.value| - SuffixLength] == TruncatedBase(displayName)
    ensures forall i :: 0 <= i < SuffixLength ==>
              r.value[|r.value| - SuffixLength + i] == Alphanumerics[randomBytes[i] as int % 62]
    ensures Sanitize(r.value) == r.value
  {
    var randomSuffix := GenerateRandomString(SuffixLength, randomBytes);
    var base := UsernameBase(displayName);
    var username := base + randomSuffix;
    if |username| < MinUsernameLength || |username| > MaxUsernameLength || !MatchesUsernamePattern(username) {
      return Failure(GenerationError("Generated username does not meet requirements"));
    }
    assert username[..|username| - SuffixLength] == base;
    SanitizeFixedPoints(username);
    return Success(username);
  }

  /**
    `generatePassword()`, with the 32 bytes supplied. Each character is
    `chars.charAt(randomBytes[i] % 70)` over the 70-symbol alphabet, and the
    6..200 length check never fails.
   */
  method GeneratePassword(randomBytes: seq<byte>) returns (r: Result<string, GenerationError>)
    requires |randomBytes| == PasswordLength
    ensures r.Success?
    ensures |r.value| == PasswordLength
    ensures forall i :: 0 <= i < PasswordLength ==> r.value[i] == PasswordAlphabet[randomBytes[i] as int % 70]
    ensures forall i :: 0 <= i < |r.value| ==> r.value[i] in PasswordAlphabet
    ensures IsValidPassword(r.value)
  {
    var password := "";
    var i := 0;
    while i < PasswordLength
      invariant 0 <= i <= PasswordLength
      invariant |password| == i
      invariant forall j :: 0 <= j < i ==> password[j] == PasswordAlphabet[randomBytes[j] as int % 70]
    {
      password := password + [PasswordAlphabet[randomBytes[i] as int % |PasswordAlphabet|]];
      i := i + 1;
    }
    if |password| < MinPasswordLength || |password| > MaxPasswordLength {
      return Failure(GenerationError("Generated password does not meet requirements"));
    }
    return Success(password);
  }
}
