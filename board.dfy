/**
 * The controller state of the sketch: the sensor statuses it remembers
 * between cycles, the three output pins it drives, and what it publishes.
 * Publishing and pin writes are recorded in ghost logs.
 */
module Board {
  import opened Light
  import opened Ascii
  import opened CText
  import opened Commands
  import opened Edges

  /** The output pins: `vermelho` (pin 33), `verde` (pin 32) and `led_luz` (pin 25). */
  datatype Pin = Red | Green | LampPin

  /** One `digitalWrite`; `high` is HIGH. */
  datatype PinWrite = PinWrite(pin: Pin, high: bool)

  /** One `MQTT.publish`. */
  datatype Publish = Publish(topic: string, message: string)

  const MotionTopic: string := "controle_movimento"
  const LightTopic: string := "controle_luminosidade"

  const MotionDetected: string := "Movimento detectado!"
  const MotionStopped: string := "Movimento parou!"

  /** The level of pin `p` after `writes`, starting from `before`: the last write to `p` wins. */
  function LevelAfter(writes: seq<PinWrite>, p: Pin, before: bool): bool
  {
    if writes == [] then before
    else if writes[|writes| - 1].pin == p then writes[|writes| - 1].high
    else LevelAfter(writes[..|writes| - 1], p, before)
  }

  /** The level of pin `p` after `writes`, from LOW at power-on. */
  function PinLevel(writes: seq<PinWrite>, p: Pin): bool
  {
    LevelAfter(writes, p, false)
  }

  /** Running writes one after the other composes their effects. */
  lemma {:induction false} LevelAfterAppend(w: seq<PinWrite>, u: seq<PinWrite>, p: Pin, before: bool)
    ensures LevelAfter(w + u, p, before) == LevelAfter(u, p, LevelAfter(w, p, before))
  {
    if u != [] {
      var wu := w + u;
      assert wu[|wu| - 1] == u[|u| - 1];
      assert wu[..|wu| - 1] == w + u[..|u| - 1];
      LevelAfterAppend(w, u[..|u| - 1], p, before);
    } else {
      assert w + u == w;
    }
  }

  /** `movimento()`: red on, green off. */
  function OccupiedWrites(): seq<PinWrite>
  {
    [PinWrite(Red, true), PinWrite(Green, false)]
  }

  /** `parou()`: red off, green on. */
  function VacantWrites(): seq<PinWrite>
  {
    [PinWrite(Red, false), PinWrite(Green, true)]
  }

  /** `piscar()`: the two LEDs swap four times, ending red on and green off. */
  function BlinkWrites(): seq<PinWrite>
  {
    VacantWrites() + OccupiedWrites() + VacantWrites() + OccupiedWrites()
  }

  /** Writes to other pins leave a pin's level alone. */
  lemma {:induction false} LevelAfterOthers(u: seq<PinWrite>, p: Pin, before: bool)
    requires forall i :: 0 <= i < |u| ==> u[i].pin != p
    ensures LevelAfter(u, p, before) == before
  {
    if u != [] {
      LevelAfterOthers(u[..|u| - 1], p, before);
    }
  }

  /** Whatever the LEDs showed before, the blink ends with red HIGH and green LOW and leaves the lamp alone. */
  lemma BlinkEndsOccupied(w: seq<PinWrite>)
    ensures PinLevel(w + BlinkWrites(), Red) && !PinLevel(w + BlinkWrites(), Green)
    ensures PinLevel(w + BlinkWrites(), LampPin) == PinLevel(w, LampPin)
  {
    LevelAfterAppend(w, BlinkWrites(), Red, false);
    LevelAfterAppend(w, BlinkWrites(), Green, false);
    LevelAfterAppend(w, BlinkWrites(), LampPin, false);
    LevelAfterOthers(BlinkWrites(), LampPin, PinLevel(w, LampPin));
  }

  /** The pin writes `movimentacao` makes: on a change, the blink and then the new indicator. */
  function MotionWrites(prev: bool, cur: bool): seq<PinWrite>
  {
    if prev == cur then [] else BlinkWrites() + (if cur then OccupiedWrites() else VacantWrites())
  }

  /** The publish `movimentacao` makes for a previous and a current motion reading. */
  function MotionReport(prev: bool, cur: bool): seq<Publish>
  {
    if !prev && cur then [Publish(MotionTopic, MotionDetected)]
    else if prev && !cur then [Publish(MotionTopic, MotionStopped)]
    else []
  }

  /** The publish `medirLuz` makes when the level moves from `prev` to `next`. */
  function LevelReport(prev: LightLevel, next: LightLevel): seq<Publish>
  {
    if prev != next then [Publish(LightTopic, LevelText(next))] else []
  }

  /** The pin writes of a command received over the messaging channel. */
  function LampWrites(c: Command): seq<PinWrite>
  {
    match c
    case LampOn => [PinWrite(LampPin, true)]
    case LampOff => [PinWrite(LampPin, false)]
    case _ => []
  }

  /**
   * The writes of `movimentacao` leave red showing the new reading and
   * green its opposite after a change, and every pin as it was otherwise.
   */
  lemma MotionWritesLevels(w: seq<PinWrite>, prev: bool, cur: bool)
    ensures PinLevel(w + MotionWrites(prev, cur), Red) == (if prev == cur then PinLevel(w, Red) else cur)
    ensures PinLevel(w + MotionWrites(prev, cur), Green) == (if prev == cur then PinLevel(w, Green) else !cur)
    ensures PinLevel(w + MotionWrites(prev, cur), LampPin) == PinLevel(w, LampPin)
  {
    if prev == cur {
      assert w + MotionWrites(prev, cur) == w;
    } else {
      var tail := if cur then OccupiedWrites() else VacantWrites();
      assert w + MotionWrites(prev, cur) == (w + BlinkWrites()) + tail;
      BlinkEndsOccupied(w);
      LevelAfterAppend(w + BlinkWrites(), tail, Red, false);
      LevelAfterAppend(w + BlinkWrites(), tail, Green, false);
      LevelAfterAppend(w + BlinkWrites(), tail, LampPin, false);
    }
  }

  /** The writes of a command leave the lamp as `LampAfter` says and the LEDs alone. */
  lemma LampWritesLevels(w: seq<PinWrite>, c: Command)
    ensures PinLevel(w + LampWrites(c), LampPin) == LampAfter(c, PinLevel(w, LampPin))
    ensures PinLevel(w + LampWrites(c), Red) == PinLevel(w, Red)
    ensures PinLevel(w + LampWrites(c), Green) == PinLevel(w, Green)
  {
    if LampWrites(c) == [] {
      assert w + LampWrites(c) == w;
    } else {
      var wc := w + LampWrites(c);
      assert wc[..|wc| - 1] == w;
    }
  }

  /** The publishes of a command; the report carries the current reading. */
  function CommandReport(c: Command, valorLuz: AdcSample): seq<Publish>
  {
    if c == ReportLight then [Publish(LightTopic, Response(valorLuz))] else []
  }

  /** The number of publishes on the motion topic. */
  function MotionReports(log: seq<Publish>): nat
  {
    if log == [] then 0
    else MotionReports(log[..|log| - 1]) + (if log[|log| - 1].topic == MotionTopic then 1 else 0)
  }

  /** The number of light-level texts published on the light topic. */
  function LevelReports(log: seq<Publish>): nat
  {
    if log == [] then 0
    else
      var last := log[|log| - 1];
      LevelReports(log[..|log| - 1]) + (if last.topic == LightTopic && IsLevelText(last.message) then 1 else 0)
  }

  /** Both counts add up over consecutive parts of the log. */
  lemma {:induction false} ReportsAppend(a: seq<Publish>, b: seq<Publish>)
    ensures MotionReports(a + b) == MotionReports(a) + MotionReports(b)
    ensures LevelReports(a + b) == LevelReports(a) + LevelReports(b)
  {
    if b != [] {
      var ab := a + b;
      assert ab[|ab| - 1] == b[|b| - 1];
      assert ab[..|ab| - 1] == a + b[..|b| - 1];
      ReportsAppend(a, b[..|b| - 1]);
    } else {
      assert a + b == a;
    }
  }

  /** A motion edge publishes once on the motion topic, steady readings not at all; no level text. */
  lemma MotionReportCount(prev: bool, cur: bool)
    ensures MotionReports(MotionReport(prev, cur)) == (if prev != cur then 1 else 0)
    ensures LevelReports(MotionReport(prev, cur)) == 0
  {
  }

  /** A level change publishes one level text, a steady level nothing; never on the motion topic. */
  lemma LevelReportCount(prev: LightLevel, next: LightLevel)
    ensures LevelReports(LevelReport(prev, next)) == (if prev != next then 1 else 0)
    ensures MotionReports(LevelReport(prev, next)) == 0
  {
  }

  /** The report answering a request is neither a motion publish nor a level text. */
  lemma CommandReportCount(c: Command, v: AdcSample)
    ensures MotionReports(CommandReport(c, v)) == 0 && LevelReports(CommandReport(c, v)) == 0
  {
  }

  /**
   * What the loop keeps: the motion publishes number the motion edges of
   * `[LOW] + samples`, and the level texts number the level changes of
   * `[0] + levels`.
   */
  ghost predicate Accounted(log: seq<Publish>, samples: seq<bool>, levels: seq<LightLevel>)
  {
    MotionReports(log) == Changes(false, samples) && LevelReports(log) == Changes(0, levels)
  }

  /** A motion reading, with the publish it causes, keeps the accounting. */
  lemma MotionKeepsAccounted(log: seq<Publish>, samples: seq<bool>, levels: seq<LightLevel>, pir: bool)
    requires Accounted(log, samples, levels)
    ensures Accounted(log + MotionReport(LastOr(false, samples), pir), samples + [pir], levels)
  {
    MotionReportCount(LastOr(false, samples), pir);
    ReportsAppend(log, MotionReport(LastOr(false, samples), pir));
    ChangesSnoc(false, samples, pir);
  }

  /** A light level, with the publish it causes, keeps the accounting. */
  lemma LevelKeepsAccounted(log: seq<Publish>, samples: seq<bool>, levels: seq<LightLevel>, next: LightLevel)
    requires Accounted(log, samples, levels)
    ensures Accounted(log + LevelReport(LastOr(0, levels), next), samples, levels + [next])
  {
    LevelReportCount(LastOr(0, levels), next);
    ReportsAppend(log, LevelReport(LastOr(0, levels), next));
    ChangesSnoc(0, levels, next);
  }

  /** Answering a command adds neither a motion publish nor a level text. */
  lemma CommandKeepsAccounted(log: seq<Publish>, samples: seq<bool>, levels: seq<LightLevel>, c: Command, v: AdcSample)
    requires Accounted(log, samples, levels)
    ensures Accounted(log + CommandReport(c, v), samples, levels)
  {
    CommandReportCount(c, v);
    ReportsAppend(log, CommandReport(c, v));
  }

  class Controller {
    /** `statusMovimento` and `statusMovimentoAnterior` (HIGH is true). */
    var statusMovimento: bool
    var statusMovimentoAnterior: bool
    /** `statusLuz` and `statusLuzAnterior`. */
    var statusLuz: LightLevel
    var statusLuzAnterior: LightLevel
    /** `valorLuz`: the last analog sample of the light sensor. */
    var valorLuz: AdcSample
    /** The output pins `led_luz`, `vermelho` and `verde` (HIGH is true). */
    var lamp: bool
    var red: bool
    var green: bool

    /** Every publish so far, oldest first. */
    ghost var published: seq<Publish>
    /** Every pin write so far, oldest first. */
    ghost var writes: seq<PinWrite>
    /** Every motion reading taken by the loop, oldest first. */
    ghost var pirReads: seq<bool>
    /** Every level computed by `medirLuz`, oldest first. */
    ghost var levels: seq<LightLevel>

    /**
     * The statuses are the last readings, and every motion edge and level
     * change was published exactly once.
     */
    ghost predicate Valid()
      reads this
    {
      statusMovimento == LastOr(false, pirReads) && statusLuz == LastOr(0, levels) &&
      Accounted(published, pirReads, levels)
    }

    /** The state when `loop` first runs: globals zero-initialised, pins LOW. */
    constructor ()
      ensures Valid()
      ensures !statusMovimento && !statusMovimentoAnterior
      ensures statusLuz == 0 && statusLuzAnterior == 0 && valorLuz == 0
      ensures !lamp && !red && !green
      ensures published == [] && writes == [] && pirReads == [] && levels == []
    {
      statusMovimento, statusMovimentoAnterior := false, false;
      statusLuz, statusLuzAnterior, valorLuz := 0, 0, 0;
      lamp, red, green := false, false, false;
      published, writes, pirReads, levels := [], [], [], [];
    }

    /** `digitalWrite(p, high)`. */
    method DigitalWrite(p: Pin, high: bool)
      modifies this`red, this`green, this`lamp, this`writes
      ensures writes == old(writes) + [PinWrite(p, high)]
      ensures red == (if p == Red then high else old(red))
      ensures green == (if p == Green then high else old(green))
      ensures lamp == (if p == LampPin then high else old(lamp))
    {
      if p == Red {
        red := high;
      } else if p == Green {
        green := high;
      } else {
        lamp := high;
      }
      writes := writes + [PinWrite(p, high)];
    }

    /** `movimento()`: shows the room as occupied. */
    method Movimento()
      modifies this`red, this`green, this`lamp, this`writes
      ensures writes == old(writes) + OccupiedWrites()
      ensures red && !green && lamp == old(lamp)
    {
      DigitalWrite(Red, true);
      DigitalWrite(Green, false);
    }

    /** `parou()`: shows the room as vacant. */
    method Parou()
      modifies this`red, this`green, this`lamp, this`writes
      ensures writes == old(writes) + VacantWrites()
      ensures !red && green && lamp == old(lamp)
    {
      DigitalWrite(Red, false);
      DigitalWrite(Green, true);
    }

    /** `piscar()`: blinks the two LEDs, whatever they showed before. */
    method Piscar()
      modifies this`red, this`green, this`lamp, this`writes
      ensures writes == old(writes) + BlinkWrites()
      ensures red && !green && lamp == old(lamp)
    {
      Parou();
      Movimento();
      Parou();
      Movimento();
    }

    /**
     * `movimentacao(prev, cur)`: on a LOW-to-HIGH or HIGH-to-LOW change,
     * one publish, the blink and the new indicator; otherwise nothing.
     */
    method Movimentacao(prev: bool, cur: bool)
      modifies this`red, this`green, this`lamp, this`writes, this`published
      ensures published == old(published) + MotionReport(prev, cur)
      ensures writes == old(writes) + MotionWrites(prev, cur)
      ensures red == (if prev == cur then old(red) else cur)
      ensures green == (if prev == cur then old(green) else !cur)
      ensures lamp == old(lamp)
    {
      if !prev && cur {
        published := published + [Publish(MotionTopic, MotionDetected)];
        Piscar();
        Movimento();
      } else if prev && !cur {
        published := published + [Publish(MotionTopic, MotionStopped)];
        Piscar();
        Parou();
      }
    }

    /**
     * `medirLuz(v)`: remembers the previous level, classifies the reading
     * and publishes the new level's text only when the level changed.
     */
    method MedirLuz(v: int)
      modifies this`statusLuz, this`statusLuzAnterior, this`published, this`levels
      ensures statusLuzAnterior == old(statusLuz) && statusLuz == ClassifyLight(v)
      ensures published == old(published) + LevelReport(old(statusLuz), ClassifyLight(v))
      ensures levels == old(levels) + [ClassifyLight(v)]
    {
      statusLuzAnterior := statusLuz;
      statusLuz := ClassifyLight(v);
      if statusLuzAnterior != statusLuz {
        published := published + [Publish(LightTopic, LevelText(statusLuz))];
      }
      assert published == old(published) + LevelReport(statusLuzAnterior, statusLuz);
      levels := levels + [statusLuz];
    }

    /** The motion half of `loop`: shift the motion status to the new reading and report a change. */
    method SenseMotion(pir: bool)
      requires Valid()
      modifies this`statusMovimento, this`statusMovimentoAnterior, this`red, this`green, this`lamp,
        this`writes, this`published, this`pirReads
      ensures Valid()
      ensures statusMovimentoAnterior == old(statusMovimento) && statusMovimento == pir
      ensures published == old(published) + MotionReport(old(statusMovimento), pir)
      ensures pirReads == old(pirReads) + [pir]
      ensures writes == old(writes) + MotionWrites(old(statusMovimento), pir)
      ensures red == (if old(statusMovimento) == pir then old(red) else pir)
      ensures green == (if old(statusMovimento) == pir then old(green) else !pir)
      ensures lamp == old(lamp)
    {
      statusMovimentoAnterior := statusMovimento;
      statusMovimento := pir;
      Movimentacao(statusMovimentoAnterior, statusMovimento);
      MotionKeepsAccounted(old(published), pirReads, levels, pir);
      pirReads := pirReads + [pir];
    }

    /** The light half of `loop`: classify the reading and report a change of level. */
    method SenseLight(raw: AdcSample)
      requires Valid()
      modifies this`statusLuz, this`statusLuzAnterior, this`published, this`levels
      ensures Valid()
      ensures statusLuzAnterior == old(statusLuz) && statusLuz == ClassifyLight(raw)
      ensures published == old(published) + LevelReport(old(statusLuz), ClassifyLight(raw))
      ensures levels == old(levels) + [ClassifyLight(raw)]
    {
      LevelKeepsAccounted(published, pirReads, levels, ClassifyLight(raw));
      MedirLuz(raw);
    }

    /**
     * One pass of `loop` without the connectivity upkeep: shift the motion
     * status, read the sensors, then report motion and light changes.
     */
    method Tick(pir: bool, raw: AdcSample)
      requires Valid()
      modifies this
      ensures Valid()
      ensures statusMovimentoAnterior == old(statusMovimento) && statusMovimento == pir
      ensures valorLuz == raw
      ensures statusLuzAnterior == old(statusLuz) && statusLuz == ClassifyLight(raw)
      ensures published == old(published)
        + MotionReport(old(statusMovimento), pir) + LevelReport(old(statusLuz), ClassifyLight(raw))
      ensures pirReads == old(pirReads) + [pir] && levels == old(levels) + [ClassifyLight(raw)]
      ensures writes == old(writes) + MotionWrites(old(statusMovimento), pir)
      ensures red == (if old(statusMovimento) == pir then old(red) else pir)
      ensures green == (if old(statusMovimento) == pir then old(green) else !pir)
      ensures lamp == old(lamp)
    {
      valorLuz := raw;
      SenseMotion(pir);
      SenseLight(valorLuz);
    }

    /** The report branch of `mqtt_callback`: formats the reading and publishes it on the light topic. */
    method PublishReport()
      requires Valid()
      modifies this`published
      ensures Valid()
      ensures published == old(published) + [Publish(LightTopic, Response(valorLuz))]
    {
      var text := ReportText(valorLuz);
      CommandKeepsAccounted(published, pirReads, levels, ReportLight, valorLuz);
      published := published + [Publish(LightTopic, text)];
    }

    /** The action `mqtt_callback` takes for a command. */
    method Apply(c: Command)
      requires Valid()
      modifies this`lamp, this`red, this`green, this`writes, this`published
      ensures Valid()
      ensures lamp == LampAfter(c, old(lamp))
      ensures writes == old(writes) + LampWrites(c)
      ensures published == old(published) + CommandReport(c, valorLuz)
      ensures red == old(red) && green == old(green)
    {
      if c == LampOn {
        DigitalWrite(LampPin, true);
        assert published == old(published) + CommandReport(c, valorLuz);
      } else if c == LampOff {
        DigitalWrite(LampPin, false);
        assert published == old(published) + CommandReport(c, valorLuz);
      } else if c == ReportLight {
        PublishReport();
        assert writes == old(writes) + LampWrites(c);
      } else {
        assert writes == old(writes) + LampWrites(c);
        assert published == old(published) + CommandReport(c, valorLuz);
      }
    }

    /**
     * `mqtt_callback`: decodes `length` payload bytes and acts on the
     * command; the topic is not consulted.
     */
    method Callback(topic: string, payload: seq<byte>, length: nat)
      requires Valid()
      requires length <= |payload|
      modifies this`lamp, this`red, this`green, this`writes, this`published
      ensures Valid()
      ensures lamp == LampAfter(Interpret(AsText(payload[..length])), old(lamp))
      ensures writes == old(writes) + LampWrites(Interpret(AsText(payload[..length])))
      ensures published == old(published) + CommandReport(Interpret(AsText(payload[..length])), valorLuz)
      ensures red == old(red) && green == old(green)
    {
      var msg := DecodePayload(payload, length);
      Apply(Interpret(msg));
    }
  }
}
