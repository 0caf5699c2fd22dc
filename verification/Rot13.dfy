/** Rotation by 13 letters, and the program that does it block by block, one system call after the other. */
module Rot13 {
  import opened CText

  const BSZ: nat := 4096

  predicate IsAlpha(c: Byte) { 65 <= c <= 90 || 97 <= c <= 122 }

  function Translate(c: Byte): Byte {
    if IsAlpha(c) then
      if c >= 110 then c - 13
      else if c >= 97 then c + 13
      else if c >= 78 then c - 13
      else c + 13
    else c
  }

  function Rot(s: seq<Byte>): (r: seq<Byte>)
    ensures |r| == |s|
  {
    seq(|s|, i requires 0 <= i < |s| => Translate(s[i]))
  }

  /** Translating twice gives back the text: the program undoes itself. */
  lemma RotTwice(s: seq<Byte>)
    ensures Rot(Rot(s)) == s
  {
    forall i | 0 <= i < |s| ensures Translate(Translate(s[i])) == s[i] {}
  }

  /** Letters stay letters of the same case, and nothing else changes. */
  lemma TranslateMoves(c: Byte)
    ensures IsAlpha(Translate(c)) == IsAlpha(c) && (Translate(c) == c <==> !IsAlpha(c))
    ensures IsAlpha(c) ==> (c < 91 <==> Translate(c) < 91) && (Translate(c) == c + 13 || Translate(c) == c - 13)
  {
  }

  /** Both halves of the alphabet, in both cases; every other byte stays as it is. */
  lemma TranslateTable(c: Byte)
    ensures 65 <= c <= 77 || 97 <= c <= 109 ==> Translate(c) == c + 13
    ensures 78 <= c <= 90 || 110 <= c <= 122 ==> Translate(c) == c - 13
    ensures c < 65 || 90 < c < 97 || c > 122 ==> Translate(c) == c
  {
  }

  lemma RotConcat(a: seq<Byte>, b: seq<Byte>)
    ensures Rot(a + b) == Rot(a) + Rot(b)
  {
  }

  /** The translation loop: the first n bytes of a buffer, in place. */
  method TranslateBuffer(buf: array<Byte>, n: nat)
    requires n <= buf.Length
    modifies buf
    ensures buf[..] == Rot(old(buf[..n])) + old(buf[n..])
  {
    var i := 0;
    while i < n
      invariant i <= n
      invariant forall j :: 0 <= j < i ==> buf[j] == Translate(old(buf[j]))
      invariant forall j :: i <= j < buf.Length ==> buf[j] == old(buf[j])
    {
      buf[i] := Translate(buf[i]);
      i := i + 1;
    }
    assert buf[..] == buf[..n] + buf[n..];
  }

  /** read at `off`: as much as there is, at most the size of the buffer. */
  method Read(file: seq<Byte>, off: nat, buf: array<Byte>) returns (n: nat)
    requires off <= |file|
    modifies buf
    ensures n == (if |file| - off < buf.Length then |file| - off else buf.Length)
    ensures buf[..n] == file[off..off + n]
  {
    n := if |file| - off < buf.Length then |file| - off else buf.Length;
    var i := 0;
    while i < n
      invariant i <= n && buf[..i] == file[off..off + i]
    {
      buf[i] := file[off + i];
      i := i + 1;
    }
  }

  /** rot13a: read, translate, write, until there is nothing left. */
  method Synchronous(file: seq<Byte>) returns (out: seq<Byte>)
    ensures out == Rot(file)
  {
    var buf := new Byte[BSZ](i => 0);
    out := [];
    var off := 0;
    var n := Read(file, off, buf);
    while n > 0
      invariant fresh(buf) && buf.Length == BSZ && off <= |file|
      invariant n == (if |file| - off < BSZ then |file| - off else BSZ) && buf[..n] == file[off..off + n]
      invariant out == Rot(file[..off])
      decreases |file| - off
    {
      TranslateBuffer(buf, n);
      assert buf[..n] == Rot(file[off..off + n]);
      RotConcat(file[..off], file[off..off + n]);
      assert file[..off + n] == file[..off] + file[off..off + n];
      out := out + buf[..n];
      off := off + n;
      n := Read(file, off, buf);
    }
    assert file[..off] == file;
  }
}
