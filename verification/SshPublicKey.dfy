/** parse_public_key of app/services/backend_ssh_keys.py: one bare Ed25519 key, whose blob follows
    section 4 of RFC 8709. Base64 decoding and the digest are parameters; white space is that of
    ASCII. */
module SshPublicKey {
  import opened Common
  import opened Text

  newtype byte = x: int | 0 <= x < 256
  type Blob = seq<byte>

  datatype Result<T> = Ok(value: T) | NotEd25519 | BadBase64 | BadBlob

  // ----- The blob -----

  const ALGORITHM: Blob := [115, 115, 104, 45, 101, 100, 50, 53, 53, 49, 57]   // ssh-ed25519
  const KEY_BYTES := 32
  const PREFIX: Blob := [0, 0, 0, 11] + ALGORITHM + [0, 0, 0, 32]

  /** The check the parser makes. */
  predicate IsKeyBlob(blob: Blob) {
    PREFIX <= blob && |blob| == |PREFIX| + KEY_BYTES
  }

  function Uint32(b: Blob): nat
    requires |b| == 4
  {
    ((b[0] as nat * 256 + b[1] as nat) * 256 + b[2] as nat) * 256 + b[3] as nat
  }

  /** A string of section 5 of RFC 4251: four bytes of length, then so many bytes. */
  function ReadString(b: Blob): Option<(Blob, Blob)> {
    if |b| < 4 then None
    else
      var n := Uint32(b[..4]);
      if |b| - 4 < n then None else Some((b[4..4 + n], b[4 + n..]))
  }

  /** Section 4 of RFC 8709: the name of the algorithm, then the 32 bytes of the key, each as a
      string, and nothing else. */
  function ReadKey(blob: Blob): Option<Blob> {
    var first := ReadString(blob);
    if first.None? || first.value.0 != ALGORITHM then None
    else
      var second := ReadString(first.value.1);
      if second.None? || |second.value.0| != KEY_BYTES || second.value.1 != [] then None else Some(second.value.0)
  }

  lemma LengthBytes(b: Blob, n: nat)
    requires |b| == 4 && n < 256
    ensures Uint32(b) == n <==> b == [0, 0, 0, n as byte]
  {
  }

  /** Comparing prefix and length accepts exactly the blobs that read as an Ed25519 key. */
  lemma PrefixCheckReadsTheKey(blob: Blob)
    ensures IsKeyBlob(blob) <==> ReadKey(blob).Some?
    ensures IsKeyBlob(blob) ==> ReadKey(blob) == Some(blob[19..])
  {
    if IsKeyBlob(blob) {
      Accepted(blob);
    } else if ReadKey(blob).Some? {
      Required(blob);
    }
  }

  lemma Accepted(blob: Blob)
    requires IsKeyBlob(blob)
    ensures ReadKey(blob) == Some(blob[19..])
  {
    assert |PREFIX| == 19;
    assert blob[..19] == PREFIX;
    assert blob[..4] == PREFIX[..4] == [0, 0, 0, 11];
    LengthBytes(blob[..4], 11);
    assert blob[4..15] == PREFIX[4..15] == ALGORITHM;
    var rest := blob[15..];
    assert rest[..4] == PREFIX[15..19] == [0, 0, 0, 32];
    LengthBytes(rest[..4], 32);
    assert rest[4..36] == blob[19..];
  }

  lemma Required(blob: Blob)
    requires ReadKey(blob).Some?
    ensures IsKeyBlob(blob)
  {
    var n := Uint32(blob[..4]);
    assert blob[4..4 + n] == ALGORITHM;
    LengthBytes(blob[..4], 11);
    var rest := blob[15..];
    var m := Uint32(rest[..4]);
    LengthBytes(rest[..4], 32);
    assert |rest| == 36;
    assert blob == blob[..4] + blob[4..15] + rest[..4] + rest[4..];
  }

  // ----- The text -----

  /** A word: not empty, no white space. */
  predicate IsWord(s: string) { s != "" && forall c | c in s :: !IsSpace(c) }

  /** The length of the word s starts with. */
  function WordLength(s: string): (n: nat)
    ensures n <= |s| && (forall i | 0 <= i < n :: !IsSpace(s[i])) && (n < |s| ==> IsSpace(s[n]))
  {
    if s == "" || IsSpace(s[0]) then 0 else 1 + WordLength(s[1..])
  }

  /** s.split() */
  function Split(s: string): (words: seq<string>)
    ensures forall i | 0 <= i < |words| :: IsWord(words[i])
    decreases |s|
  {
    if s == "" then []
    else
      var n := WordLength(s);
      if n == 0 then Split(s[1..]) else [s[..n]] + Split(s[n..])
  }

  /** parse_public_key: the stored line and the fingerprint. */
  function ParsePublicKey(input: string, decode: string -> Option<Blob>, digest: Blob -> nat): Result<(string, nat)> {
    var value := Strip(input);
    var parts := Split(value);
    if |value| > 4096 || '\n' in value || '\r' in value || |parts| < 2 || parts[0] != "ssh-ed25519" then NotEd25519
    else
      var blob := decode(parts[1]);
      if blob.None? then BadBase64
      else if !IsKeyBlob(blob.value) then BadBlob
      else Ok((Line(parts[1]), digest(blob.value)))
  }

  function Line(text: string): string { "ssh-ed25519" + " " + text }

  lemma WholeWord(w: string, rest: string)
    requires IsWord(w) && (rest != "" ==> IsSpace(rest[0]))
    ensures WordLength(w + rest) == |w|
  {
    forall i | 0 <= i < |w| ensures !IsSpace((w + rest)[i]) {
      assert (w + rest)[i] == w[i] && w[i] in w;
    }
    assert rest != "" ==> (w + rest)[|w|] == rest[0];
  }

  lemma SplitWord(w: string, rest: string)
    requires IsWord(w) && (rest != "" ==> IsSpace(rest[0]))
    ensures Split(w + rest) == [w] + Split(rest)
  {
    WholeWord(w, rest);
    assert (w + rest)[..|w|] == w && (w + rest)[|w|..] == rest;
  }

  lemma SplitTwo(a: string, b: string, comment: string)
    requires IsWord(a) && IsWord(b) && (comment != "" ==> IsSpace(comment[0]))
    ensures Split(a + " " + b + comment) == [a, b] + Split(comment)
  {
    var tail := b + comment;
    var rest := " " + tail;
    assert a + " " + b + comment == a + rest;
    calc {
      Split(a + rest);
      { SplitWord(a, rest); }
      [a] + Split(rest);
      { SkipSpace(rest); assert rest[1..] == tail; }
      [a] + Split(tail);
      { SplitWord(b, comment); }
      [a] + ([b] + Split(comment));
    }
  }

  lemma SkipSpace(s: string)
    requires s != "" && IsSpace(s[0])
    ensures Split(s) == Split(s[1..])
  {
  }

  /** A line splits as meant, whatever comment is behind it. */
  lemma SplitLine(text: string, comment: string)
    requires IsWord(text) && (comment != "" ==> IsSpace(comment[0]))
    ensures Split(Line(text) + comment) == ["ssh-ed25519", text] + Split(comment)
  {
    assert IsWord("ssh-ed25519");
    SplitTwo("ssh-ed25519", text, comment);
  }

  /** Every key line is accepted, with or without a comment, and the comment is dropped. */
  lemma KeyLineIsAccepted(input: string, text: string, comment: string, decode: string -> Option<Blob>, digest: Blob -> nat)
    requires IsWord(text) && (comment != "" ==> IsSpace(comment[0]))
    requires Strip(input) == Line(text) + comment && |Strip(input)| <= 4096 && '\n' !in Strip(input) && '\r' !in Strip(input)
    requires decode(text).Some? && ReadKey(decode(text).value).Some?
    ensures ParsePublicKey(input, decode, digest) == Ok((Line(text), digest(decode(text).value)))
  {
    SplitLine(text, comment);
    PrefixCheckReadsTheKey(decode(text).value);
  }

  lemma StrippedLine(text: string)
    requires IsWord(text)
    ensures Strip(Line(text)) == Line(text)
  {
    assert Line(text)[0] == "ssh-ed25519"[0] == 's';
    assert Line(text)[|Line(text)| - 1] == text[|text| - 1] && text[|text| - 1] in text;
  }

  /** A stored line is what it parses to: the parser accepts it again, with the same fingerprint. */
  lemma StoredLineIsStable(input: string, decode: string -> Option<Blob>, digest: Blob -> nat)
    requires ParsePublicKey(input, decode, digest).Ok?
    ensures var r := ParsePublicKey(input, decode, digest).value;
            ParsePublicKey(r.0, decode, digest) == Ok(r) && |r.0| <= 4096 && '\n' !in r.0 && '\r' !in r.0
  {
    var value := Strip(input);
    var parts := Split(value);
    var text := parts[1];
    assert IsWord(text);
    TwoWordsFit(value);
    StrippedLine(text);
    assert Line(text) + "" == Line(text);
    SplitLine(text, "");
    forall c | c in Line(text) ensures c != '\n' && c != '\r' {
      assert c in "ssh-ed25519" || c == ' ' || c in text;
    }
  }

  lemma {:induction false} OneWordFits(s: string)
    requires |Split(s)| >= 1
    ensures |Split(s)[0]| <= |s|
    decreases |s|
  {
    if WordLength(s) == 0 { OneWordFits(s[1..]); }
  }

  lemma {:induction false} TwoWordsFit(s: string)
    requires |Split(s)| >= 2
    ensures |Split(s)[0]| + 1 + |Split(s)[1]| <= |s|
    decreases |s|
  {
    var n := WordLength(s);
    if n == 0 {
      TwoWordsFit(s[1..]);
    } else {
      var rest := s[n..];
      assert Split(s) == [s[..n]] + Split(rest);
      assert Split(rest) == Split(rest[1..]);
      OneWordFits(rest[1..]);
    }
  }
}
