/**
 * The wall-clock timestamp operand of `between` and its date literal.
 * A timestamp is six integer fields used verbatim: no calendar validation
 * and no time-zone conversion.
 */
module Timestamps {
  import opened Wrappers
  import opened Decimal

  datatype Timestamp = Timestamp(year: nat, month: nat, day: nat, hour: nat, minute: nat, second: nat)

  /** The field ranges of a Python `datetime` (days are not checked against the month). */
  predicate InRange(t: Timestamp)
  {
    && 1 <= t.year <= 9999
    && 1 <= t.month <= 12
    && 1 <= t.day <= 31
    && t.hour < 24
    && t.minute < 60
    && t.second < 60
  }

  /** `strftime('%Y-%m-%d %H:%M:%S')`: zero-padded, 24-hour, second precision. */
  function Format(t: Timestamp): string
  {
    Assemble(PadLeft(t.year, 4), PadLeft(t.month, 2), PadLeft(t.day, 2),
             PadLeft(t.hour, 2), PadLeft(t.minute, 2), PadLeft(t.second, 2))
  }

  /** Date and time parts joined as `Y-M-D H:M:S`. */
  function Assemble(y: string, mo: string, d: string, h: string, mi: string, sec: string): string
  {
    y + "-" + mo + "-" + d + " " + h + ":" + mi + ":" + sec
  }

  /** The server-side date expression wrapped around a formatted timestamp. */
  const DateOpen := "javascript:gs.dateGenerate(\""
  const DateClose := "\")"

  /** The timestamp as the record store's server-side date expression. */
  function DateLiteral(t: Timestamp): string
  {
    DateOpen + Format(t) + DateClose
  }

  /** Reads a `YYYY-MM-DD HH:MM:SS` string back; the reference inverse of Format. */
  function Parse(s: string): Option<Timestamp>
  {
    if && |s| == 19
       && s[4] == '-' && s[7] == '-' && s[10] == ' ' && s[13] == ':' && s[16] == ':'
       && IsDigits(s[0..4]) && IsDigits(s[5..7]) && IsDigits(s[8..10])
       && IsDigits(s[11..13]) && IsDigits(s[14..16]) && IsDigits(s[17..19])
    then
      Some(Timestamp(ParseNat(s[0..4]), ParseNat(s[5..7]), ParseNat(s[8..10]),
                     ParseNat(s[11..13]), ParseNat(s[14..16]), ParseNat(s[17..19])))
    else
      None
  }

  /** A field below 10^width renders in exactly `width` digits that read back as the field. */
  lemma {:induction false} PaddedField(n: nat, width: nat)
    requires 1 <= width && n < Pow10(width)
    ensures |PadLeft(n, width)| == width
    ensures IsDigits(PadLeft(n, width)) && ParseNat(PadLeft(n, width)) == n
  {
    NatToStringLength(n, width);
    ParsePadLeft(n, width);
  }

  /** Where each part of an assembled timestamp sits, when the parts have their padded widths. */
  lemma {:induction false} AssembleLayout(y: string, mo: string, d: string, h: string, mi: string, sec: string)
    requires |y| == 4 && |mo| == 2 && |d| == 2 && |h| == 2 && |mi| == 2 && |sec| == 2
    ensures var s := Assemble(y, mo, d, h, mi, sec);
      && |s| == 19
      && s[4] == '-' && s[7] == '-' && s[10] == ' ' && s[13] == ':' && s[16] == ':'
      && s[0..4] == y && s[5..7] == mo && s[8..10] == d
      && s[11..13] == h && s[14..16] == mi && s[17..19] == sec
  {
    var s := Assemble(y, mo, d, h, mi, sec);
    assert s == y + ("-" + mo + "-" + d + " " + h + ":" + mi + ":" + sec);
  }

  /** Every in-range timestamp formats to the fixed 19-character layout
      whose fields read back as the timestamp's own fields. */
  lemma {:induction false} FormatLayout(t: Timestamp)
    requires InRange(t)
    ensures var s := Format(t);
      && |s| == 19
      && s[4] == '-' && s[7] == '-' && s[10] == ' ' && s[13] == ':' && s[16] == ':'
      && IsDigits(s[0..4]) && IsDigits(s[5..7]) && IsDigits(s[8..10])
      && IsDigits(s[11..13]) && IsDigits(s[14..16]) && IsDigits(s[17..19])
      && ParseNat(s[0..4]) == t.year && ParseNat(s[5..7]) == t.month && ParseNat(s[8..10]) == t.day
      && ParseNat(s[11..13]) == t.hour && ParseNat(s[14..16]) == t.minute && ParseNat(s[17..19]) == t.second
  {
    assert Pow10(2) == 100 && Pow10(4) == 10000;
    PaddedField(t.year, 4);
    PaddedField(t.month, 2);
    PaddedField(t.day, 2);
    PaddedField(t.hour, 2);
    PaddedField(t.minute, 2);
    PaddedField(t.second, 2);
    AssembleLayout(PadLeft(t.year, 4), PadLeft(t.month, 2), PadLeft(t.day, 2),
                   PadLeft(t.hour, 2), PadLeft(t.minute, 2), PadLeft(t.second, 2));
  }

  /** Formatting loses nothing: the wall-clock fields are rendered verbatim. */
  lemma {:induction false} ParseFormat(t: Timestamp)
    requires InRange(t)
    ensures Parse(Format(t)) == Some(t)
  {
    FormatLayout(t);
  }
}
