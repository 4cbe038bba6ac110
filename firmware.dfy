/**
  The microcontroller side (main.py): every cycle it reads the force sensor's
  16-bit ADC value, scales it down by 64 to the range 0..1023 and prints it as a
  decimal line over USB.
 */
module Firmware {
  import opened Text

  /** What `read_u16()` returns. */
  type U16 = x: int | 0 <= x < 0x1_0000

  /** The largest value the scaling can produce. */
  const MaxScaled: nat := 1023

  /** `analog_reading // 64`: floor division of the raw reading by 64. */
  function Scale(raw: U16): (r: nat)
    ensures r <= MaxScaled
    ensures r * 64 <= raw < r * 64 + 64
  {
    raw / 64
  }

  /** A larger raw reading never scales to a smaller value. */
  lemma ScaleMonotone(a: U16, b: U16)
    requires a <= b
    ensures Scale(a) <= Scale(b)
  {
  }

  /** Every value 0..1023 is reached, by the raw reading 64 times it. */
  lemma ScaleOnto(v: nat)
    requires v <= MaxScaled
    ensures Scale(v * 64) == v
  {
  }

  /**
    The line ending on the wire: `print` ends its output with "\n", and
    MicroPython's console output (the USB serial link) sends a newline as "\r\n".
   */
  const LineEnd := "\r\n"

  /** `print(f"{analog_reading}")` as it reaches the USB link: the decimal digits, then the line ending. */
  function SampleLine(raw: U16): string
  {
    Decimal(Scale(raw)) + LineEnd
  }

  /** The sent line is 1 to 4 digits, with no leading zero unless it is "0", and then "\r\n". */
  lemma SampleLineShape(raw: U16)
    ensures var line := SampleLine(raw);
      |line| >= 3 && line[|line| - 2..] == LineEnd && AllDigits(line[..|line| - 2])
      && |line| <= 6 && (line[0] == '0' ==> line == "0\r\n")
  {
    var line := SampleLine(raw);
    assert line[..|line| - 2] == Decimal(Scale(raw));
    assert line[|line| - 2..] == LineEnd;
    DecimalLength(Scale(raw));
  }

  /** A number below 10^k has at most k digits. */
  lemma {:induction false} DecimalLength(n: nat)
    ensures n < 10 ==> |Decimal(n)| == 1
    ensures n < 100 ==> |Decimal(n)| <= 2
    ensures n < 1000 ==> |Decimal(n)| <= 3
    ensures n < 10000 ==> |Decimal(n)| <= 4
  {
    if n >= 10 {
      DecimalLength(n / 10);
    }
  }

  /**
    The firmware's sampling loop, run over a finite sequence of sensor readings;
    the result is the sequence of lines it writes to USB, in order.
   */
  method SampleLoop(readings: seq<U16>) returns (output: seq<string>)
    ensures |output| == |readings|
    ensures forall i :: 0 <= i < |readings| ==> output[i] == SampleLine(readings[i])
  {
    output := [];
    var k := 0;
    while k < |readings|
      invariant 0 <= k <= |readings|
      invariant |output| == k
      invariant forall i :: 0 <= i < k ==> output[i] == SampleLine(readings[i])
    {
      var analogReading: int := readings[k];
      analogReading := analogReading / 64;
      output := output + [Decimal(analogReading) + LineEnd];
      k := k + 1;
    }
  }
}
