/** The note record produced by the decoder and the pitch-name part of its
    diagnostic rendering. Pitch 0 is the lowest key of an 88-key piano (an A);
    the MIDI emitter adds 21 to obtain a MIDI note number. */
module Notes {

  type Int32 = x: int | -0x8000_0000 <= x < 0x8000_0000

  /** A decoded note. Times are in seconds; `instrument` and `program` are
      never set by the decoder and keep their default 0. */
  datatype Note = Note(
    pitch: Int32,
    startTime: real,
    endTime: real,
    velocity: Int32,
    instrument: Int32,
    program: Int32)

  /** The initialiser: stores its four arguments and defaults the rest. */
  function MakeNote(pitch: Int32, startTime: real, endTime: real, velocity: Int32): (n: Note)
    ensures n.pitch == pitch && n.startTime == startTime
    ensures n.endTime == endTime && n.velocity == velocity
    ensures n.instrument == 0 && n.program == 0
  {
    Note(pitch, startTime, endTime, velocity, 0, 0)
  }

  // ---------------------------------------------------------------------------
  // Swift integer division: quotient truncated toward zero, remainder with the
  // sign of the dividend (Dafny's own `/` and `%` are Euclidean).
  // ---------------------------------------------------------------------------

  function TruncRem(a: int, b: int): (r: int)
    requires b > 0
    ensures -b < r < b
    ensures a >= 0 ==> r >= 0
    ensures a <= 0 ==> r <= 0
  {
    if a >= 0 then a % b else -((-a) % b)
  }

  function TruncDiv(a: int, b: int): (q: int)
    requires b > 0
  {
    if a >= 0 then a / b else -((-a) / b)
  }

  /** The octave printed after the name: `pitch / 12` truncated toward zero. */
  function Octave(pitch: int): (octave: int)
    ensures pitch >= 0 ==> 12 * octave <= pitch < 12 * octave + 12
    ensures pitch < 0 ==> 12 * octave - 12 < pitch <= 12 * octave
  {
    TruncDiv(pitch, 12)
  }

  /** The name printed for a pitch, switching on Swift's `pitch % 12`. */
  function PitchName(pitch: int): (name: string)
    ensures name == "Unknown" <==> TruncRem(pitch, 12) < 0
    ensures name != "Unknown" ==> name == NoteNames[TruncRem(pitch, 12)]
  {
    match TruncRem(pitch, 12)
    case 0 => "A"
    case 1 => "A#"
    case 2 => "B"
    case 3 => "C"
    case 4 => "C#"
    case 5 => "D"
    case 6 => "D#"
    case 7 => "E"
    case 8 => "F"
    case 9 => "F#"
    case 10 => "G"
    case 11 => "G#"
    case _ => "Unknown"
  }

  /** The twelve names in chromatic order starting from A. */
  const NoteNames: seq<string> := ["A", "A#", "B", "C", "C#", "D", "D#", "E", "F", "F#", "G", "G#"]

  /** The name is the table entry of the pitch class for every pitch that is
      non-negative or a multiple of 12, and "Unknown" for every other one
      (a negative pitch whose Swift remainder is negative). */
  lemma PitchNameTable(pitch: int)
    ensures PitchName(pitch) == if pitch >= 0 || pitch % 12 == 0 then NoteNames[pitch % 12] else "Unknown"
  {
    var r := TruncRem(pitch, 12);
    if pitch < 0 && pitch % 12 != 0 {
      assert r < 0;
    } else {
      assert r == pitch % 12;
    }
  }

  /** "Unknown" is printed exactly for negative pitches off a multiple of 12. */
  lemma UnknownExactlyForNegativeRemainder(pitch: int)
    ensures PitchName(pitch) == "Unknown" <==> pitch < 0 && pitch % 12 != 0
  {
    PitchNameTable(pitch);
    if pitch >= 0 || pitch % 12 == 0 {
      var k := pitch % 12;
      assert NoteNames[k] != "Unknown" by {
        assert 0 <= k < 12;
      }
    }
  }

  /** Moving a non-negative pitch up twelve keys keeps its name and raises
      the printed octave by exactly one. */
  lemma OctaveUp(pitch: int)
    requires pitch >= 0
    ensures PitchName(pitch + 12) == PitchName(pitch)
    ensures Octave(pitch + 12) == Octave(pitch) + 1
  {
    PitchNameTable(pitch);
    PitchNameTable(pitch + 12);
    assert (pitch + 12) % 12 == pitch % 12;
  }

  /** For non-negative pitches, name and octave together identify the pitch. */
  lemma NameAndOctaveDeterminePitch(p: int, q: int)
    requires p >= 0 && q >= 0
    requires PitchName(p) == PitchName(q) && Octave(p) == Octave(q)
    ensures p == q
  {
    PitchNameTable(p);
    PitchNameTable(q);
    assert p % 12 == q % 12;
  }

  // ---------------------------------------------------------------------------
  // Decimal rendering of integers, as Swift string interpolation prints them.
  // ---------------------------------------------------------------------------

  predicate IsDigit(c: char)
  {
    '0' <= c <= '9'
  }

  function DigitChar(d: int): (c: char)
    requires 0 <= d < 10
    ensures IsDigit(c) && c as int - '0' as int == d
  {
    ('0' as int + d) as char
  }

  /** The decimal digits of `n`, most significant first, no leading zeros. */
  function NatDigits(n: nat): (s: string)
    ensures |s| >= 1 && forall i :: 0 <= i < |s| ==> IsDigit(s[i])
    ensures |s| > 1 ==> s[0] != '0'
    decreases n
  {
    if n < 10 then [DigitChar(n)] else NatDigits(n / 10) + [DigitChar(n % 10)]
  }

  function DecimalString(n: int): string
  {
    if n < 0 then "-" + NatDigits(-n) else NatDigits(n)
  }

  /** Reads back a run of decimal digits. */
  function ParseDigits(s: string): nat
    requires forall i :: 0 <= i < |s| ==> IsDigit(s[i])
    decreases |s|
  {
    if |s| == 0 then 0
    else
      assert IsDigit(s[|s| - 1]);
      ParseDigits(s[..|s| - 1]) * 10 + (s[|s| - 1] as int - '0' as int)
  }

  /** Reads back an optionally signed decimal numeral (total on the numerals
      `DecimalString` produces; anything else reads as 0). */
  function ParseDecimal(s: string): int
  {
    if |s| >= 1 && s[0] == '-' && (forall i :: 1 <= i < |s| ==> IsDigit(s[i])) then
      -(ParseDigits(s[1..]) as int)
    else if forall i :: 0 <= i < |s| ==> IsDigit(s[i]) then
      ParseDigits(s)
    else
      0
  }

  lemma {:induction false} NatDigitsRoundTrip(n: nat)
    ensures ParseDigits(NatDigits(n)) == n
    decreases n
  {
    if n >= 10 {
      NatDigitsRoundTrip(n / 10);
      var s := NatDigits(n);
      assert s[..|s| - 1] == NatDigits(n / 10);
    }
  }

  /** Every integer printed in decimal reads back as itself. */
  lemma DecimalRoundTrip(n: int)
    ensures ParseDecimal(DecimalString(n)) == n
  {
    if n < 0 {
      NatDigitsRoundTrip(-n);
      var s := DecimalString(n);
      assert s[1..] == NatDigits(-n);
    } else {
      NatDigitsRoundTrip(n);
      assert DecimalString(n)[0] != '-';
    }
  }

  /** The part of `description` the model renders: name, octave, velocity and
      the `>> ` separator. The floating-point start and end times that follow
      it are not modelled. */
  function DescriptionPrefix(n: Note): (s: string)
    ensures |PitchName(n.pitch)| + 3 <= |s|
    ensures s[..|PitchName(n.pitch)|] == PitchName(n.pitch) && s[|s| - 3..] == ">> "
  {
    PitchName(n.pitch) + DecimalString(Octave(n.pitch)) + ": " + DecimalString(n.velocity) + ">> "
  }

  /** The rendering starts with the pitch name, and the numeral after it
      reads back as the octave. */
  lemma DescriptionPrefixReadsBack(n: Note)
    ensures var name, oct := PitchName(n.pitch), DecimalString(Octave(n.pitch));
      var s := DescriptionPrefix(n);
      |name| + |oct| <= |s| && s[..|name|] == name && ParseDecimal(s[|name|..|name| + |oct|]) == Octave(n.pitch)
  {
    var name, oct := PitchName(n.pitch), DecimalString(Octave(n.pitch));
    var s := DescriptionPrefix(n);
    DecimalRoundTrip(Octave(n.pitch));
    assert s[|name|..|name| + |oct|] == oct;
  }
}
