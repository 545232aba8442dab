/** Password records: printed, split and parsed back. `kdf` stands for PBKDF2 with HMAC-SHA-256. */
module Password {
  import opened Encodings

  const ALGORITHM := "pbkdf2-sha256"
  const ITERATIONS: int := 600_000
  const SALT_BYTES: nat := 16
  const KEY_BYTES: nat := 32

  /** password, salt, iterations and key length to key */
  type Kdf = (string, seq<Byte>, int, nat) -> seq<Byte>

  datatype Verdict = Verdict(ok: bool) | InvalidHash

  ghost predicate KeepsLength(kdf: Kdf) {
    forall password, salt, iterations, n :: |kdf(password, salt, iterations, n)| == n
  }

  function HashPassword(kdf: Kdf, password: string, salt: seq<Byte>): string {
    var key := kdf(password, salt, ITERATIONS, KEY_BYTES);
    "$" + ALGORITHM + "$" + PrintInt(ITERATIONS) + "$" + EncodeBase64(salt) + "$" + EncodeBase64(key)
  }

  function VerifyPassword(kdf: Kdf, encoded: string, password: string): Verdict {
    var parts := Split(encoded, '$');
    if |parts| != 5 || parts[0] != "" || parts[1] != ALGORITHM then InvalidHash
    else
      var iterations := ParseInt64(parts[2]);
      var salt, expected := DecodeBase64(parts[3]), DecodeBase64(parts[4]);
      if iterations.None? || iterations.value < 1 then InvalidHash
      else if salt.None? || |salt.value| < 8 then InvalidHash
      else if expected.None? || |expected.value| < 16 then InvalidHash
      else Verdict(kdf(password, salt.value, iterations.value, |expected.value|) == expected.value)
  }

  lemma DigitsHaveNoDollar(s: string)
    requires AllDigits(s)
    ensures '$' !in s
  {
    assert !IsDigit('$');
  }

  /** A printed record splits into the empty string and the four fields. */
  lemma RecordSplits(iterations: nat, salt: seq<Byte>, key: seq<Byte>)
    ensures Split("$" + ALGORITHM + "$" + PrintInt(iterations) + "$" + EncodeBase64(salt) + "$" + EncodeBase64(key),
        '$')
            == ["", ALGORITHM, PrintInt(iterations), EncodeBase64(salt), EncodeBase64(key)]
  {
    DecodeEncodeBase64(salt);
    DecodeEncodeBase64(key);
    assert Base64Value('$').None?;
    DigitsHaveNoDollar(PrintInt(iterations));
    SplitFour(ALGORITHM, PrintInt(iterations), EncodeBase64(salt), EncodeBase64(key), '$');
  }

  lemma IterationsText()
    ensures PrintInt(ITERATIONS) == "600000"
  {
    assert PrintNat(600) == "600";
    assert PrintNat(600_000) == PrintNat(60_000) + "0" == PrintNat(6_000) + "0" + "0";
  }

  /**
   For every salt of the size drawn, a stored record accepts exactly the passwords whose derived key
   is the stored one; in particular it accepts the password it was made from.
   */
  lemma VerifyHashed(kdf: Kdf, password: string, salt: seq<Byte>, attempt: string)
    requires KeepsLength(kdf) && |salt| == SALT_BYTES
    ensures VerifyPassword(kdf, HashPassword(kdf, password, salt), attempt)
            == Verdict(kdf(attempt, salt, 600_000, 32) == kdf(password, salt, 600_000, 32))
  {
    var key := kdf(password, salt, ITERATIONS, KEY_BYTES);
    RecordSplits(ITERATIONS, salt, key);
    ParsePrint(ITERATIONS);
    DecodeEncodeBase64(salt);
    DecodeEncodeBase64(key);
  }

  /** The record names algorithm, 600 000 iterations, salt and a key of 32 bytes, each after a dollar sign. */
  lemma RecordText(kdf: Kdf, password: string, salt: seq<Byte>)
    ensures HashPassword(kdf, password, salt)
            == "$pbkdf2-sha256$600000$" + EncodeBase64(salt) + "$" + EncodeBase64(kdf(password, salt, 600_000, 32))
  {
    IterationsText();
    var name := "$" + ALGORITHM + "$" + PrintInt(ITERATIONS) + "$";
    assert name == "$pbkdf2-sha256$600000$";
    assert HashPassword(kdf, password, salt)
        == name + EncodeBase64(salt) + "$" + EncodeBase64(kdf(password, salt, ITERATIONS, KEY_BYTES));
  }

  /** A stored record as its fields: iteration count, salt and key, the last two in base64. */
  ghost predicate RecordOf(encoded: string, n: string, s: string, k: string) {
    '$' !in n && '$' !in s && '$' !in k && encoded == "$" + ALGORITHM + "$" + n + "$" + s + "$" + k
  }

  predicate Usable(n: string, s: string, k: string) {
    && ParseInt64(n).Some? && ParseInt64(n).value >= 1
    && DecodeBase64(s).Some? && |DecodeBase64(s).value| >= 8
    && DecodeBase64(k).Some? && |DecodeBase64(k).value| >= 16
  }

  lemma FieldsRead(kdf: Kdf, encoded: string, n: string, s: string, k: string, password: string)
    requires RecordOf(encoded, n, s, k)
    ensures VerifyPassword(kdf, encoded, password)
            == if !Usable(n, s, k) then InvalidHash
               else var salt, key := DecodeBase64(s).value, DecodeBase64(k).value;
                    Verdict(kdf(password, salt, ParseInt64(n).value, |key|) == key)
  {
    SplitFour(ALGORITHM, n, s, k, '$');
  }

  lemma FieldsExist(encoded: string)
    requires var parts := Split(encoded, '$'); |parts| == 5 && parts[0] == "" && parts[1] == ALGORITHM
    ensures var parts := Split(encoded, '$'); RecordOf(encoded, parts[2], parts[3], parts[4])
  {
    var parts := Split(encoded, '$');
    JoinSplit(encoded, '$');
    JoinFive(ALGORITHM, parts[2], parts[3], parts[4], '$');
    assert parts == ["", ALGORITHM, parts[2], parts[3], parts[4]];
  }

  /**
   Exactly the strings of this form, with a positive count, a salt of 8 bytes and a key of 16 or more, are
   compared at all.
   */
  lemma ComparedIffWellFormed(kdf: Kdf, encoded: string, password: string)
    ensures VerifyPassword(kdf, encoded, password).Verdict?
            <==> exists n, s, k :: RecordOf(encoded, n, s, k) && Usable(n, s, k)
  {
    if VerifyPassword(kdf, encoded, password).Verdict? {
      FieldsExist(encoded);
    }
    if n, s, k :| RecordOf(encoded, n, s, k) && Usable(n, s, k) {
      FieldsRead(kdf, encoded, n, s, k, password);
    }
  }
}
