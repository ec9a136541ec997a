// common/SipmRegister.h: the registers of the SiPM supply, and the command tables built on them.
// Register numbers are not part of this model.
module SipmRegisters {
  import opened Wrappers
  import opened Numbers
  import opened Tables

  datatype Register = Register(name: string, format: Format)

  // The registers of the table in its order, by what can be done with them: read and written,
  function First(): seq<Register> {
    [Register("HV_ENABLE", Bool), Register("MODE", Int), Register("V_TARGET_WRITE", Float),
     Register("RAMP_SPEED", Float), Register("MAX_V", Float), Register("MAX_I", Float),
     Register("C_TEMP_M2", Float), Register("C_TEMP_M", Float), Register("C_TEMP_Q", Float),
     Register("ALFA_VOUT", Float), Register("ALFA_IOUT", Float), Register("ALFA_VREF", Float),
     Register("ALFA_TREF", Float), Register("TCOEF", Float), Register("LUT_ENABLE", Bool),
     Register("ENABLE_PI", Bool)]
  }

  // written only,
  function Second(): seq<Register> {
    [Register("EMERGENCY_STOP", Bool), Register("IZERO", Bool)]
  }

  // read and written,
  function Third(): seq<Register> {
    [Register("LUT_ADDRESS", Int), Register("LUT_PROGRAM_TEMPERATURE", Float),
     Register("LUT_PROGRAM_OUTPUT_VALUE", Float), Register("LUT_LENGTH", Int),
     Register("I2C_BASE_ADDRESS", Int), Register("CURRENT_RANGE", Int)]
  }

  // read only,
  function Fourth(): seq<Register> {
    [Register("PIN_STATUS", Int), Register("VIN", Float), Register("VOUT", Float), Register("IOUT", Float),
     Register("VREF", Float), Register("TREF", Float), Register("V_TARGET_READ", Float),
     Register("R_TARGET", Float), Register("CVT", Float), Register("COMPLIANCE_V", Bool),
     Register("COMPLIANCE_I", Bool), Register("PRODUCT_CODE", Int), Register("FW_VERSION", Float),
     Register("HW_VERSION", Float), Register("SERIAL_NUMBER", Int)]
  }

  // and written only.
  function Fifth(): seq<Register> {
    [Register("STORE_ON_FLASH", Bool)]
  }

  function Readable(): (rs: seq<Register>)
    ensures |rs| == 37
  {
    First() + Third() + Fourth()
  }

  function Writable(): (rs: seq<Register>)
    ensures |rs| == 25
  {
    First() + Second() + Third() + Fifth()
  }

  lemma FirstMatches(a: nat)
    requires a < 16
    ensures First()[a] == Register(SharedNames()[a], SharedFormats()[a])
  {
  }

  lemma ReadsAfterShared(a: nat)
    requires a < 21
    ensures (Third() + Fourth())[a] == Register(ReadNames()[a], ReadFormats()[a])
  {
  }

  lemma WritesAfterShared(a: nat)
    requires a < 9
    ensures (Second() + Third() + Fifth())[a] == Register(WriteNames()[a], WriteFormats()[a])
  {
  }

  /** The read actions are the readable registers: each takes nothing and returns its register's
      format. */
  lemma ReadsMatch(a: nat)
    requires a < |SipmReadActions()|
    ensures SipmReadActions()[a] == Action(Readable()[a].name, [], Some(Readable()[a].format))
  {
    if a < 16 {
      FirstMatches(a);
    } else {
      ReadsAfterShared(a - 16);
      assert First() + Third() + Fourth() == First() + (Third() + Fourth());
    }
  }

  /** The write actions are the writable registers: each takes its register's format. */
  lemma WritesMatch(a: nat)
    requires a < |SipmWriteActions()|
    ensures SipmWriteActions()[a] == Action(Writable()[a].name, [Writable()[a].format], None)
  {
    if a < 16 {
      FirstMatches(a);
    } else {
      WritesAfterShared(a - 16);
      assert First() + Second() + Third() + Fifth() == First() + (Second() + Third() + Fifth());
    }
  }
}
