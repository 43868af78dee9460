/** Small shared vocabulary: optional values, bytes, ASCII text as bytes,
    decimal rendering of numbers, and the frame value every component passes around. */
module Common {

  datatype Option<+T> = None | Some(value: T)

  /** One octet of a byte string (Python `bytes`). */
  type byte = b: int | 0 <= b < 256

  predicate IsAscii(s: string) {
    forall i :: 0 <= i < |s| ==> s[i] as int < 256
  }

  /** The bytes of a Latin-1/ASCII string literal, one byte per character. */
  function Ascii(s: string): (r: seq<byte>)
    requires IsAscii(s)
    ensures |r| == |s|
    ensures forall i :: 0 <= i < |s| ==> r[i] == s[i] as int
  {
    seq(|s|, i requires 0 <= i < |s| => s[i] as int)
  }

  function Min(a: int, b: int): int { if a <= b then a else b }
  function Max(a: int, b: int): int { if a >= b then a else b }

  function DigitChar(d: nat): char
    requires d < 10
  {
    "0123456789"[d]
  }

  /** Decimal rendering of a natural number, as Python's `str` or an f-string prints it. */
  function NatToString(n: nat): (r: string)
    ensures |r| >= 1
    decreases n
  {
    if n < 10 then [DigitChar(n)] else NatToString(n / 10) + [DigitChar(n % 10)]
  }

  /** ASCII lower-casing of one character; other characters are left as they are. */
  function LowerChar(c: char): (r: char)
    ensures 'A' <= c <= 'Z' ==> r as int == c as int + 32
    ensures !('A' <= c <= 'Z') ==> r == c
  {
    if 'A' <= c <= 'Z' then (c as int + 32) as char else c
  }

  function Lower(s: string): (r: string)
    ensures |r| == |s|
    ensures forall i :: 0 <= i < |s| ==> r[i] == LowerChar(s[i])
  {
    seq(|s|, i requires 0 <= i < |s| => LowerChar(s[i]))
  }

  /** Lower-casing twice is lower-casing once. */
  lemma LowerIdempotent(s: string)
    ensures Lower(Lower(s)) == Lower(s)
  {
  }

  predicate EndsWith(s: string, suffix: string) {
    |suffix| <= |s| && s[|s| - |suffix|..] == suffix
  }

  /** Pixel content of a frame, left abstract: a blank (all-zero) raster or some captured data. */
  datatype Image = Blank | Pixels(data: seq<int>)

  /** What a drawing call leaves on a frame: a rectangle outline, a filled rectangle or a text label. */
  datatype Drawing =
    | Rect(x1: int, y1: int, x2: int, y2: int, color: Color)
    | FilledRect(x1: int, y1: int, x2: int, y2: int, color: Color)
    | Label(text: string, x: int, y: int, color: Color)

  datatype Color = Color(b: int, g: int, r: int)

  /** A raster frame (height x width x 3). The drawing calls made on it are recorded in order. */
  datatype Frame = Frame(height: int, width: int, image: Image, drawings: seq<Drawing>)

  function Draw(f: Frame, d: Drawing): (r: Frame)
    ensures r.height == f.height && r.width == f.width && r.image == f.image
    ensures r.drawings == f.drawings + [d]
  {
    f.(drawings := f.drawings + [d])
  }
}
