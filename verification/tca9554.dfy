/** The TCA9554 I/O expander operations of main/hardware/TCA9554PWR.c over
    an abstract register file. The I2C transfers are replaced by reads
    and writes of the registers; every register write is logged so that
    "nothing was written" can be stated. Transfer failures, which abort
    the firmware, are not part of this model. */
module Tca9554 {

  datatype Reg = InputReg | OutputReg | ConfigReg

  datatype Write = Write(reg: Reg, value: bv8)

  datatype Expander = Expander(input: bv8, output: bv8, config: bv8, log: seq<Write>)

  /** Bit j of a register value. */
  predicate Bit(v: bv8, j: nat)
    requires j < 8
  {
    v & BitValue(j) != 0
  }

  /** The register value with only bit j set. */
  function BitValue(j: nat): (m: bv8)
    requires j < 8
  {
    match j
    case 0 => 0x01 case 1 => 0x02 case 2 => 0x04 case 3 => 0x08
    case 4 => 0x10 case 5 => 0x20 case 6 => 0x40 case _ => 0x80
  }

  /** `0x01 << (pin - 1)` as it lands in a uint8: the pin's bit for pins
      1..8; for pins 9..32 the bit falls off the byte. Pin 0 and pins
      above 32 shift by an amount C leaves undefined. */
  function Mask(pin: int): (m: bv8)
    requires 1 <= pin <= 32
    ensures pin <= 8 ==> forall j :: 0 <= j < 8 ==> (Bit(m, j) <==> j == pin - 1)
    ensures pin > 8 ==> m == 0
  {
    if pin <= 8 then BitValue(pin - 1) else 0
  }

  function ReadReg(e: Expander, reg: Reg): bv8 {
    match reg
    case InputReg => e.input
    case OutputReg => e.output
    case ConfigReg => e.config
  }

  /** Write_REG: the register takes the value and the write is logged. */
  function WriteReg(e: Expander, reg: Reg, value: bv8): (r: Expander)
    requires reg != InputReg
    ensures ReadReg(r, reg) == value && r.input == e.input
    ensures r.log == e.log + [Write(reg, value)]
    ensures reg == OutputReg ==> r.config == e.config
    ensures reg == ConfigReg ==> r.output == e.output
  {
    match reg
    case OutputReg => e.(output := value, log := e.log + [Write(reg, value)])
    case ConfigReg => e.(config := value, log := e.log + [Write(reg, value)])
  }

  /** Mode_EXIO as written: the pin's configuration bit is set whatever
      mode was asked for, so no pin can be made an output this way. */
  function ModeExioAsWritten(e: Expander, pin: int, state: int): (r: Expander)
    requires 1 <= pin <= 32
    ensures |r.log| == |e.log| + 1 && r.output == e.output
    ensures 1 <= pin <= 8 ==> Bit(r.config, pin - 1)
  {
    WriteReg(e, ConfigReg, Mask(pin) | ReadReg(e, ConfigReg))
  }

  /** After EXIO_Init (all outputs), asking for pin 3 as an output makes it
      an input instead: the configuration becomes 0x04. */
  lemma ModeIgnoresStateAsWritten(e: Expander)
    ensures ModeExioAsWritten(ExioInit(e), 3, 0).config == 0x04
    ensures ModeExioAsWritten(e, 3, 0) == ModeExioAsWritten(e, 3, 1)
  {
  }

  /** Mode_EXIO as its comment describes it (0 output, 1 input), guarded
      like Set_EXIO: the pin's configuration bit takes the mode and the
      other pins keep theirs; bad arguments write nothing. */
  function ModeExio(e: Expander, pin: int, state: int): (r: Expander)
    ensures !(0 <= state < 2 && 1 <= pin <= 8) ==> r == e
    ensures 0 <= state < 2 && 1 <= pin <= 8 ==>
      && |r.log| == |e.log| + 1 && r.output == e.output && r.input == e.input
      && (Bit(r.config, pin - 1) <==> state == 1)
      && forall j :: 0 <= j < 8 && j != pin - 1 ==> (Bit(r.config, j) <==> Bit(e.config, j))
  {
    if 0 <= state < 2 && 1 <= pin <= 8 then
      var bits := ReadReg(e, ConfigReg);
      WriteReg(e, ConfigReg, WithBit(bits, pin - 1, state == 1))
    else e
  }

  /** Mode_EXIOS: the whole configuration register is overwritten. */
  function ModeExios(e: Expander, pinState: bv8): (r: Expander)
    ensures r.config == pinState && r.output == e.output && |r.log| == |e.log| + 1
  {
    WriteReg(e, ConfigReg, pinState)
  }

  /** Read_EXIO: bit pin-1 of the input register, as 0 or 1; pins 9..32
      read 0. */
  function ReadExio(e: Expander, pin: int): (b: int)
    requires 1 <= pin <= 32
    ensures b == 0 || b == 1
    ensures pin <= 8 ==> (b == 1 <==> Bit(e.input, pin - 1))
    ensures pin > 8 ==> b == 0
  {
    if pin <= 8 then ((e.input >> (pin - 1)) & 1) as int else 0
  }

  /** Read_EXIOS: the whole input register. */
  function ReadExios(e: Expander): (v: bv8)
    ensures forall j :: 0 <= j < 8 ==> (Bit(v, j) <==> ReadExio(e, j + 1) == 1)
  {
    ReadReg(e, InputReg)
  }

  /** Set_EXIO: for a valid pin and level, the pin's output bit takes the
      level and the others keep theirs; otherwise nothing is written. */
  function SetExio(e: Expander, pin: int, state: int): (r: Expander)
    ensures !(0 <= state < 2 && 1 <= pin <= 8) ==> r == e
    ensures 0 <= state < 2 && 1 <= pin <= 8 ==>
      && |r.log| == |e.log| + 1 && r.log[|e.log|].reg == OutputReg
      && r.config == e.config && r.input == e.input
      && (Bit(r.output, pin - 1) <==> state == 1)
      && forall j :: 0 <= j < 8 && j != pin - 1 ==> (Bit(r.output, j) <==> Bit(e.output, j))
  {
    var bits := ReadReg(e, OutputReg);
    if 0 <= state < 2 && 1 <= pin <= 8 then
      WriteReg(e, OutputReg, WithBit(bits, pin - 1, state == 1))
    else e
  }

  /** Set_EXIOS: the whole output register is overwritten. */
  function SetExios(e: Expander, pinState: bv8): (r: Expander)
    ensures r.output == pinState && r.config == e.config && |r.log| == |e.log| + 1
  {
    WriteReg(e, OutputReg, pinState)
  }

  /** Set_Toggle: the output bit becomes the negation of the pin's INPUT
      bit; the other output bits are kept. */
  function SetToggle(e: Expander, pin: int): (r: Expander)
    requires 1 <= pin <= 32
    ensures pin <= 8 ==>
      && (Bit(r.output, pin - 1) <==> !Bit(e.input, pin - 1))
      && forall j :: 0 <= j < 8 && j != pin - 1 ==> (Bit(r.output, j) <==> Bit(e.output, j))
    ensures pin > 8 ==> r == e
  {
    var level := ReadExio(e, pin);
    SetExio(e, pin, if level == 0 then 1 else 0)
  }

  /** When the input register mirrors the outputs (as it does for pins
      configured as outputs), toggling twice restores the outputs. */
  lemma ToggleTwiceRestores(e: Expander, pin: int)
    requires 1 <= pin <= 8 && e.input == e.output
    ensures var once := SetToggle(e, pin);
      SetToggle(once.(input := once.output), pin).output == e.output
  {
    var once := SetToggle(e, pin);
    var mirrored := once.(input := once.output);
    var twice := SetToggle(mirrored, pin);
    forall j | 0 <= j < 8
      ensures Bit(twice.output, j) <==> Bit(e.output, j)
    {
      if j == pin - 1 {
        assert Bit(twice.output, j) <==> !Bit(once.output, j);
      } else {
        assert Bit(twice.output, j) <==> Bit(once.output, j);
      }
    }
    BitsDetermine(twice.output, e.output);
  }

  /** The value with bit k switched on or off, as `mask | v` and
      `~mask & v` compute it. */
  function WithBit(v: bv8, k: nat, on: bool): (r: bv8)
    requires k < 8
    ensures Bit(r, k) == on
    ensures forall j :: 0 <= j < 8 && j != k ==> (Bit(r, j) <==> Bit(v, j))
  {
    SetBitKeepsOthers(v, k);
    ClearBitKeepsOthers(v, k);
    if on then v | BitValue(k) else !BitValue(k) & v
  }

  /** Setting bit k leaves the other seven bits as they were. */
  lemma SetBitKeepsOthers(v: bv8, k: nat)
    requires k < 8
    ensures Bit(v | BitValue(k), k)
    ensures forall j :: 0 <= j < 8 && j != k ==> (Bit(v | BitValue(k), j) <==> Bit(v, j))
  {
    forall j | 0 <= j < 8 && j != k
      ensures Bit(v | BitValue(k), j) <==> Bit(v, j)
    {
      assert BitValue(k) & BitValue(j) == 0;
    }
  }

  /** Clearing bit k leaves the other seven bits as they were. */
  lemma ClearBitKeepsOthers(v: bv8, k: nat)
    requires k < 8
    ensures !Bit(!BitValue(k) & v, k)
    ensures forall j :: 0 <= j < 8 && j != k ==> (Bit(!BitValue(k) & v, j) <==> Bit(v, j))
  {
    forall j | 0 <= j < 8 && j != k
      ensures Bit(!BitValue(k) & v, j) <==> Bit(v, j)
    {
      assert BitValue(k) & BitValue(j) == 0;
    }
  }

  /** Two register values with the same eight bits are equal. */
  lemma BitsDetermine(a: bv8, b: bv8)
    requires forall j :: 0 <= j < 8 ==> (Bit(a, j) <==> Bit(b, j))
    ensures a == b
  {
    assert Bit(a, 0) == Bit(b, 0) && Bit(a, 1) == Bit(b, 1) && Bit(a, 2) == Bit(b, 2) && Bit(a, 3) == Bit(b, 3);
    assert Bit(a, 4) == Bit(b, 4) && Bit(a, 5) == Bit(b, 5) && Bit(a, 6) == Bit(b, 6) && Bit(a, 7) == Bit(b, 7);
  }

  /** EXIO_Init: every pin configured as an output. The buzzer call that
      follows is not part of this model. */
  function ExioInit(e: Expander): (r: Expander)
    ensures r.config == 0 && forall j :: 0 <= j < 8 ==> !Bit(r.config, j)
    ensures r.output == e.output
  {
    ModeExios(e, 0x00)
  }
}
