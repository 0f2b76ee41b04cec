/** How S3 keys and size labels are rendered as text, and why the rendering loses nothing. */
module KeyLayout {

  /** The object an S3 key stands for; `Name` is the key the store sees. */
  datatype Key = Original(id: string) | Thumbnail(id: string, px: int)

  function Digit(d: int): char
    requires 0 <= d < 10
  {
    ('0' as int + d) as char
  }

  function Digits(n: nat): string {
    if n < 10 then [Digit(n)] else Digits(n / 10) + [Digit(n % 10)]
  }

  /** The rendering of Go's %d verb. */
  function Decimal(n: int): string {
    if n < 0 then "-" + Digits(-n) else Digits(n)
  }

  /** The public size label, "100x100". */
  function SizeName(px: int): string {
    Decimal(px) + "x" + Decimal(px)
  }

  function OriginalKey(id: string): string {
    "avatars/" + id + "/original"
  }

  function ThumbnailKey(id: string, px: int): string {
    "thumbnails/" + id + "/" + SizeName(px) + ".jpg"
  }

  function Name(k: Key): string {
    match k
    case Original(id) => OriginalKey(id)
    case Thumbnail(id, px) => ThumbnailKey(id, px)
  }

  // ---------------------------------------------------------------------------------------
  // Decimal rendering is invertible
  // ---------------------------------------------------------------------------------------

  function ParseDigits(s: string): int {
    if s == [] then 0 else 10 * ParseDigits(s[..|s| - 1]) + (s[|s| - 1] as int - '0' as int)
  }

  function ParseDecimal(s: string): int {
    if s != [] && s[0] == '-' then -ParseDigits(s[1..]) else ParseDigits(s)
  }

  ghost predicate AllDigits(s: string) {
    forall i | 0 <= i < |s| :: '0' <= s[i] <= '9'
  }

  lemma {:induction false} ParseRendersDigits(n: nat)
    ensures ParseDigits(Digits(n)) == n
    ensures Digits(n) != [] && AllDigits(Digits(n))
  {
    if n >= 10 {
      ParseRendersDigits(n / 10);
      assert Digits(n)[..|Digits(n)| - 1] == Digits(n / 10);
    } else {
      assert Digits(n)[..0] == [];
    }
  }

  /** Reading a rendered number back gives the number, so no two numbers share a rendering. */
  lemma DecimalRoundTrip(n: int)
    ensures ParseDecimal(Decimal(n)) == n
    ensures forall c | c in Decimal(n) :: c == '-' || '0' <= c <= '9'
  {
    if n < 0 {
      ParseRendersDigits(-n);
      assert Decimal(n)[1..] == Digits(-n);
    } else {
      ParseRendersDigits(n);
      assert Digits(n)[0] != '-';
    }
  }

  // ---------------------------------------------------------------------------------------
  // Splitting at a separator
  // ---------------------------------------------------------------------------------------

  /** A text splits in one way only at the first occurrence of a separator. */
  lemma SplitAtFirst(p: string, q: string, p': string, q': string, c: char)
    requires c !in p && c !in p'
    requires p + [c] + q == p' + [c] + q'
    ensures p == p' && q == q'
  {
    var s, s' := p + [c] + q, p' + [c] + q';
    assert s[|p|] == c && s'[|p'|] == c;
    assert forall i | 0 <= i < |p| :: s[i] == p[i];
    assert forall i | 0 <= i < |p'| :: s'[i] == p'[i];
    assert s[..|p|] == p && s'[..|p'|] == p';
    assert s[|p| + 1..] == q && s'[|p'| + 1..] == q';
  }

  /** ... and at the last one, whatever stands before it. */
  lemma SplitAtLast(p: string, q: string, p': string, q': string, c: char)
    requires c !in q && c !in q'
    requires p + [c] + q == p' + [c] + q'
    ensures p == p' && q == q'
  {
    var s, s' := p + [c] + q, p' + [c] + q';
    assert s[|p|] == c && s'[|p'|] == c;
    assert forall i | |p| < i < |s| :: s[i] == q[i - |p| - 1];
    assert forall i | |p'| < i < |s'| :: s'[i] == q'[i - |p'| - 1];
    assert s[..|p|] == p && s'[..|p'|] == p';
    assert s[|p| + 1..] == q && s'[|p'| + 1..] == q';
  }

  // ---------------------------------------------------------------------------------------
  // The layout is injective
  // ---------------------------------------------------------------------------------------

  lemma SizeNameInjective(px: int, px': int)
    requires SizeName(px) == SizeName(px')
    ensures px == px'
  {
    DecimalRoundTrip(px);
    DecimalRoundTrip(px');
    SplitAtFirst(Decimal(px), Decimal(px), Decimal(px'), Decimal(px'), 'x');
  }

  lemma OriginalKeyInjective(id: string, id': string)
    requires OriginalKey(id) == OriginalKey(id')
    ensures id == id'
  {
    var k, k' := OriginalKey(id), OriginalKey(id');
    assert k[8..|k| - 9] == id && k'[8..|k'| - 9] == id';
  }

  lemma ThumbnailKeyInjective(id: string, px: int, id': string, px': int)
    requires ThumbnailKey(id, px) == ThumbnailKey(id', px')
    ensures id == id' && px == px'
  {
    var file, file' := SizeName(px) + ".jpg", SizeName(px') + ".jpg";
    var dir, dir' := "thumbnails/" + id, "thumbnails/" + id';
    DecimalRoundTrip(px);
    DecimalRoundTrip(px');
    assert ThumbnailKey(id, px) == dir + ['/'] + file;
    assert ThumbnailKey(id', px') == dir' + ['/'] + file';
    SplitAtLast(dir, file, dir', file', '/');
    assert dir[11..] == id && dir'[11..] == id';
    assert file[..|file| - 4] == SizeName(px) && file'[..|file'| - 4] == SizeName(px');
    SizeNameInjective(px, px');
  }

  lemma HundredDigits(n: nat)
    requires n == 100 || n == 300
    ensures Digits(n) == (if n == 100 then "100" else "300")
  {
    assert Digits(n / 100) == [Digit(n / 100)];
    assert Digits(n / 10) == Digits(n / 100) + "0";
    assert Digits(n) == Digits(n / 10) + "0";
  }

  /** The two sizes the worker makes, as clients and the store know them. */
  lemma KeyExamples()
    ensures SizeName(100) == "100x100" && SizeName(300) == "300x300"
    ensures OriginalKey("abc") == "avatars/abc/original"
    ensures ThumbnailKey("abc", 100) == "thumbnails/abc/100x100.jpg"
    ensures ThumbnailKey("abc", 300) == "thumbnails/abc/300x300.jpg"
  {
    HundredDigits(100);
    HundredDigits(300);
  }

  /** Two objects never share a key, for all id strings (even with '/') and all sizes: the
      store indexed by `Key` is the store indexed by the rendered text. */
  lemma NameInjective(k: Key, k': Key)
    requires Name(k) == Name(k')
    ensures k == k'
  {
    assert Name(k)[0] == if k.Original? then 'a' else 't';
    assert Name(k')[0] == if k'.Original? then 'a' else 't';
    match (k, k') {
      case (Original(id), Original(id')) => OriginalKeyInjective(id, id');
      case (Thumbnail(id, px), Thumbnail(id', px')) => ThumbnailKeyInjective(id, px, id', px');
      case _ =>
    }
  }
}
