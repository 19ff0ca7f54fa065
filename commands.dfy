/**
 * The command protocol of `mqtt_callback`: decoding the payload bytes,
 * choosing the command, the lamp state each command leaves, and the
 * formatted light report with the buffer it is written into.
 */
module Commands {
  import opened Ascii
  import opened Decimal
  import opened CText
  import opened Light

  /** What an inbound payload asks for. */
  datatype Command = LampOn | LampOff | ReportLight | Ignored

  /** The report request, matched ignoring case. */
  const ReportRequest: string := "Controle luminosidade"

  /** Builds the text of the payload from exactly `length` bytes, one character at a time. */
  method DecodePayload(payload: seq<byte>, length: nat) returns (msg: string)
    requires length <= |payload|
    ensures |msg| == length
    ensures forall i :: 0 <= i < length ==> msg[i] as int == payload[i]
    ensures msg == AsText(payload[..length])
  {
    msg := "";
    for i := 0 to length
      invariant |msg| == i
      invariant forall j :: 0 <= j < i ==> msg[j] == ByteToChar(payload[j])
    {
      var c := ByteToChar(payload[i]);
      msg := msg + [c];
    }
  }

  /**
   * The dispatch: "L" and "D" are matched exactly (case-sensitive), the
   * report request ignoring case, and anything else is ignored.
   */
  function Interpret(msg: string): (c: Command)
    ensures c == LampOn <==> msg == "L"
    ensures c == LampOff <==> msg == "D"
    ensures c == ReportLight <==> EqualsIgnoreCase(msg, ReportRequest)
    ensures c == Ignored <==> msg != "L" && msg != "D" && !EqualsIgnoreCase(msg, ReportRequest)
  {
    if msg == "L" then LampOn
    else if msg == "D" then LampOff
    else if EqualsIgnoreCase(msg, ReportRequest) then ReportLight
    else Ignored
  }

  /** The single-letter commands are case-sensitive. */
  lemma LampCommandsCaseSensitive()
    ensures Interpret("l") == Ignored && Interpret("d") == Ignored
  {
  }

  /** The report request is recognised in any case, and only with its exact words. */
  lemma ReportRequestIgnoresCase()
    ensures Interpret("CONTROLE LUMINOSIDADE") == ReportLight
    ensures Interpret("Controle de luminosidade") == Ignored
  {
    var upper := "CONTROLE LUMINOSIDADE";
    assert Lower(upper) == Lower(ReportRequest) by {
      forall i | 0 <= i < |upper|
        ensures Lower(upper)[i] == Lower(ReportRequest)[i]
      {
      }
    }
    EqualsIgnoreCaseIffLower(upper, ReportRequest);
  }

  /** The lamp pin level after a command, given the level before it. */
  function LampAfter(c: Command, lamp: bool): bool
  {
    match c
    case LampOn => true
    case LampOff => false
    case _ => lamp
  }

  /** Lamp commands are assignments: applying one twice equals applying it once. */
  lemma LampAfterIdempotent(c: Command, lamp: bool)
    ensures LampAfter(c, LampAfter(c, lamp)) == LampAfter(c, lamp)
    ensures c == LampOn ==> LampAfter(c, lamp)
    ensures c == LampOff ==> !LampAfter(c, lamp)
    ensures c == ReportLight || c == Ignored ==> LampAfter(c, lamp) == lamp
  {
  }

  const ResponsePrefix: string := "Controle de luminosidade: "
  const ResponseSuffix: string := "/4095"

  /** The light report for a reading, as `"Controle de luminosidade: %d/4095"` formats it. */
  function Response(v: nat): (r: string)
    ensures |r| == 31 + |DecimalText(v)|
    ensures r[..26] == ResponsePrefix && r[|r| - 5..] == ResponseSuffix
    ensures AllDigits(r[26..|r| - 5]) && DecimalValue(r[26..|r| - 5]) == v
    ensures NUL !in r
  {
    var r := ResponsePrefix + DecimalText(v) + ResponseSuffix;
    assert r[26..|r| - 5] == DecimalText(v);
    DecimalRoundTrip(v);
    r
  }

  /** A report is never mistaken for a light-level text. */
  lemma ResponseIsNotLevelText(v: nat)
    ensures !IsLevelText(Response(v))
  {
  }

  /** Whether a text and its terminating NUL fit a character buffer of `capacity`. */
  predicate FitsBuffer(s: string, capacity: nat)
  {
    |s| + 1 <= capacity
  }

  /** The size of `msgResposta` as declared. */
  const SourceResponseCapacity: nat := 35

  /** The size the report needs for every reading of the converter. */
  const ResponseCapacity: nat := 36

  /**
   * As declared, `msgResposta` holds the report exactly when the reading
   * has at most three digits; a reading of 1000 or more overflows it.
   */
  lemma ResponseFitsSourceBuffer(v: AdcSample)
    ensures FitsBuffer(Response(v), SourceResponseCapacity) <==> v < 1000
  {
    DecimalLength(v, 3);
  }

  /** The smallest overflowing input: "Controle de luminosidade: 1000/4095" is 35 characters plus its NUL. */
  lemma SourceBufferOverflowAt1000()
    ensures |Response(1000)| == 35
    ensures !FitsBuffer(Response(1000), SourceResponseCapacity)
  {
  }

  /** With one more byte, every converter reading fits. */
  lemma ResponseFitsBuffer(v: AdcSample)
    ensures FitsBuffer(Response(v), ResponseCapacity)
  {
    DecimalLength(v, 4);
  }

  /** `sprintf` of the report into `buf`: the text followed by its NUL. */
  method FormatResponse(buf: array<char>, v: nat)
    requires FitsBuffer(Response(v), buf.Length)
    modifies buf
    ensures CString(buf[..]) == Response(v)
  {
    var r := Response(v);
    for i := 0 to |r|
      invariant buf[..i] == r[..i]
    {
      buf[i] := r[i];
    }
    buf[|r|] := NUL;
    assert buf[..][..|r|] == r;
    CStringOfTerminated(buf[..], r);
  }

  /**
   * The text published in answer to a report request: formatted into a
   * local buffer of the corrected size `ResponseCapacity` (one more than the
   * declared `msgResposta[35]`) and read back as a NUL-terminated string.
   */
  method ReportText(v: AdcSample) returns (text: string)
    ensures text == Response(v)
  {
    var msgResposta := new char[ResponseCapacity];
    ResponseFitsBuffer(v);
    FormatResponse(msgResposta, v);
    text := CString(msgResposta[..]);
  }
}
