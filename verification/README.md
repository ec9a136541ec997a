# CalvisionPi: a model of the remote control pipeline

CalvisionPi controls LED and SiPM hardware from a Raspberry Pi. A client turns lines of text into
commands, sends them over a socket without any length prefix, and reads back a 16-bit code and
sometimes a 32-bit value. The server rebuilds each command knowing only its tables, carries it out
on I2C and GPIO devices, and replies. This project models that pipeline, the device encoders under
it and the configuration file, and proves what they are relied on for:

- text to server: whatever white space is used, a command arrives with the same device, action and
  parameter words, and frames sent back to back come apart again (`Text`, `Numbers`, `Tables`,
  `Codec`); and text to devices: for every device and action by its name, the state, reply and
  message bytes a line leads to (`Commands`, `SipmRegisters`);
- lockstep: for every interleaving of the two programs' socket operations, result *i* is what
  executing command *i* came to in the state the commands before it left, both queues are empty when
  the client sends to a live server, there is no deadlock and every run ends with the script done
  (`Lockstep`, against the reference in `Histories`); the same holds for the two loops as written,
  and a finished interleaved run agrees with them (`Server`, `Client`, `EndToEnd`);
- server safety: for any bytes of any sequence of clients, cut anywhere, and whatever writes fail,
  what is executed is, connection by connection, an initial part of the complete frames up to the
  first Quit, and all of them unless a write to that client failed or the server died; no cut frame
  is executed and nothing runs after Quit (`ServerSafety`);
- the response contract of the nine `execute` bodies (`Execution`, `DeviceContext`, `Effects`), and
  that a failure leaves nothing behind but the messages already sent (`Failures`);
- calibration in exact and in rounded arithmetic, the exact condition under which a calibration
  keeps voltages in range (`Calibration`, `Accuracy`, `RoundedRange`); over any history and any
  server run, every frame sent to a guarded voltage DAC is safe, and frame *k* carries the code of
  accepted voltage *k* (`Devices`, `VoltageSafety`, `EndToEnd`); and exactly which voltages the
  unguarded DAC can be given (`SipmDacRange`);
- the sensors: TMP112 registers as a map of fields, and the two readings in an AHT10 answer
  (`Tmp112`, `Aht10`), carried to command histories: each field holds what the last command wrote,
  and reads return the last answer's numbers, scaled (`Effects`);
- the configuration file as a last-wins map with a small state machine for `SIPM`, down to the
  control that is made, and what each name in it sets (`Config`, `ConfigMeaning`, `ConfigNames`).

`dafny verify dfyconfig.toml` checks everything.

## How the source is modelled

Classes that update their fields are classes (`Socket`, `Dac`, `Mcp4725`, `Ltc2635`, `Context`,
`ServerListener`, `ContextInput`, and a `Sensor` each in `Tmp112` and `Aht10`), loops are methods
with loops, and each is proved against a function on values (`Serve`, `Converse`, `Execute`,
`ParseAll`, ...), about which the lemmas speak. Pure lookups and conversions are functions. The four
DAC objects of the LTC2635 alias one buffer, as in the source.

Assumed of code that is not part of this model: the socket is a FIFO of bytes whose short reads
throw after draining what is left, and reading no bytes succeeds; a table is a bijection between
names and keys, in whatever order its pairs are listed; a sensor register stores what is written to
it, and which register the first byte of a message selects is an arbitrary table of the sensor; bit
0 of a bit array is the least significant bit of the big-endian word; `long` has 64 bits.
`std::stof` and the reading of a word as a float are arbitrary functions given as parameters, and
what devices do in one execution (good or not, throwing after any number of accesses or not, the
words, texts and bytes they answer) is an arbitrary value `Hardware`. A run of the server is over
finitely many connections with finite streams, each with a number of writes that succeed.

## Where the code departs from its intent

- **Codes that fall.** A voltage in range can give a code out of range when `DacMin` > `DacMax` > 0:
  the computed value can be just under `DacMax` and is truncated. `InRangeCondition` says exactly
  which of these calibrations are strict, that is safe for every rounding: those whose voltage
  range, in the configured unit, is an integer of at most 2^24 that divides the code range. For
  every other, `FallingCodesEscape` gives a rounding with which the end voltage gives the code
  below; `FallingCodesEscapeInBinary32` gives binary32 numbers (codes 4 to 1 over 0 to 21 mV,
  request 21 mV, code 0). `RoundedCodeNearRange` bounds the damage to one code. The shipped
  configuration has rising codes (and a falling voltage for HV, which is safe).
- **No range check for the SiPM DAC.** With the shipped 0 to 2500 mV for codes 0 to 4095, a write of
  2501 mV succeeds and sends code 0; with 0 to 2047 mV for codes 0 to 2047, one of 4094 mV sends
  code 4094 (`SipmDacUnguarded`). In exact arithmetic `CodeInRangeCondition` gives the voltages
  whose code is in range: the calibrated range and one step beyond its upper end (and beyond the
  lower, if that is code 0). Since 12 bits are sent, a frame carries a code in range for these and
  for their copies 4096 codes apart (`FrameInRange`, `SipmDacWriteInRange`); with rounding the same
  holds up to a twentieth of a step at either end. Where the code would not fit 16 bits the language
  leaves the conversion undefined, and nothing is said.
- **Uncaught errors.** `std::stoi`, `stoul` and `stof` throw logic errors, which no handler for
  runtime errors catches. A bad number in a script ends the client (`MakeCommandAborts`), one in the
  configuration ends the server at start (`FileAccepted`), and a SiPM reply over UART that begins
  with `OK` but is too short or no number ends a running server, the only reply that does
  (`ResponseContract`). Two such inputs are the line `TemperatureRead Read x` (`BadNumberAborts`)
  and the reply `OK` alone (`BareReplyKills`).
- **Bool does not round-trip.** It prints `1` or `0` but is read as `true`: `BoolReadOfShow`. A Bool
  register read over UART from a supply that answers in the server's own notation is always 0
  (`RegisterRead`).
- **Truncated numbers.** A bus number, code or retry count in the configuration that is too wide for
  its field wraps silently: `HV BusId 257` sets bus 1 (`WideNumberWraps`). A field holds the number
  written if and only if it fits (`NumberKept`, `SipmNumberKept`). A Uint parameter of up to 64
  bits, negative or not, is accepted and read modulo 2^32, so as itself if and only if it fits 32
  bits (`UintKept`); 4294967297 is read as 1 (`UintWraps`).
- **Busy sensor.** A humidity sensor that answers busy is read all the same, and `request_read`
  fails only if no retries are configured (`RequestRead`): then every measurement is answered
  `ResourceBusy` (`ReplyError`).
- **Register number.** A write to the temperature sensor begins with the field's bit position where
  a register number belongs. Fields keep their values whichever registers these positions select
  (`LastFieldWrite`), but nothing makes them fields of the configuration register.
- The command outline in the repository's own README.md (lines 59-118) describes an earlier design;
  the model follows the code.

## Model

| member | source | states |
|---|---|---|
| `Text.Tokenize` | common/StringUtil.cpp:4-19 | the index loop returns the maximal white-space-free runs, in order |
| `Text.TokensCharacterized` | common/StringUtil.cpp:4-19 | the tokens are the only list of non-empty solid strings that rebuilds the line with white space around and between them |
| `Text.TokensOfRender` | common/StringUtil.cpp:4-19 | joining tokens with any white space and tokenizing is the identity |
| `Text.TokensSplitAtSpace` | common/StringUtil.cpp:8-13 | tokenizing distributes over concatenation at a space |
| `Text.CutsAt` | common/StringUtil.cpp:8-13 | a character between two solid strings cuts the line exactly if it is one of the six white-space characters |
| `Text.LineIsRender` | common/StringUtil.cpp:4-19 | no character but white space is lost: every line is its tokens laid out with white space |
| `Numbers.ReadOfShow` | common/DataFormat.h:43-55 | for every 32-bit word, printing as Int or Uint and reading with base 0 gives the word back |
| `Numbers.PrefixSelectsBase` | common/DataFormat.h:43-55 | base 0: plain digits are read as decimal, 0x as hexadecimal, a leading 0 as octal, and text after the digits is ignored |
| `Numbers.BareZero` | common/DataFormat.h:43-55 | a zero that begins no octal or hexadecimal digits is 0 |
| `Numbers.CapitalsRead` | common/DataFormat.h:43-55 | capital letters are the same digits and the same prefix |
| `Numbers.StrtolOfText` | common/DataFormat.h:43-55 | white space and a plus sign before a number and text after it make no difference; a minus sign negates |
| `Numbers.Limits` | common/DataFormat.h:43-55 | exactly which numbers std::stol, stoi and stoul accept |
| `Numbers.BoolReadOfShow` | common/DataFormat.h:32-41 | for Bool the round trip holds if and only if the word is 0; as a number the text reads as 0 or 1 |
| `Numbers.BoolRead` | common/DataFormat.h:32-41 | a Bool is 1 exactly in a text that begins, after white space, with the letters true, and 0 in every other |
| `Numbers.UintKept` | common/DataFormat.h:49-55 | every number of 64 bits, with or without a minus sign, is accepted for a Uint and read modulo 2^32; as itself if and only if it fits 32 bits |
| `Numbers.UintWraps` | common/DataFormat.h:53 | 4294967297 is read as 1 |
| `Numbers.StripResponse` | server/SiPMSupply.cpp:132-143 | a UART reply is accepted exactly if it has four characters and starts with OK, and loses its line end |
| `Numbers.ReadUart` | server/SiPMSupply.h:126-131 | the reading of a register: the stripping of the reply, the length test that does not throw and the conversion give what UartReply says of the text |
| `Numbers.UartRoundTrip` | server/SiPMSupply.h:126-140 | a reply carrying a printed Int or Uint reads back as the same word, one carrying a Bool always as 0 |
| `Tables.CalvisionTables` | common/Command.h:38-50 | in the eleven device tables names identify positions, and Quit is where the server looks for it |
| `Codec.BuildAction` | common/Command.cpp:19-53 | the loop over parameter formats stops at the first bad, missing or surplus parameter as specified |
| `Codec.BuildCommand` | common/Command.cpp:76-92 | the lookup of the device and the dispatch return what the specification of make_command says |
| `Codec.MakeCommandSpells` | common/Command.cpp:15-92 | a command is built if and only if the tokens are its device, its action and readable texts of exactly its parameters |
| `Codec.MakeCommandAborts` | common/Command.cpp:31-52 | the client dies if and only if device and action are known and a parameter within their count is unreadable |
| `Codec.BadNumberAborts` | common/Command.cpp:31-52 | the line TemperatureRead Read x ends the client |
| `Codec.WriteCommand` | common/Command.h:101-104 | two writes send the code and the data; what a failure leaves sent |
| `Codec.ReadCommand` | common/Command.cpp:96-143 | what is read from any stream, what is left of it, and that a short read inside a frame gives a null command |
| `Codec.ReadOfEncode` | common/Command.cpp:132-143 | reading a written command gives it back and takes nothing that follows |
| `Codec.EncodeOfRead` | common/Command.cpp:100-112 | a command that is read has one action word and the table's number of parameters, and its encoding is exactly what was consumed |
| `Codec.SelfDelimiting` | common/Command.cpp:96-143 | decoding the concatenated encodings of any commands gives the list with nothing left over |
| `Codec.TextToServer` | common/Command.cpp:76-143 | for any spacing of any spelling of a command, tokenizing, building, writing and reading give that command |
| `Codec.PrintedParameters` | common/DataFormat.cpp:10-23 | printed Int and Uint values spell themselves as parameters |
| `Calibration.CodeRoundTrip` | server/DAC.cpp:29-35 | in exact arithmetic a code comes back unchanged from its voltage |
| `Calibration.VoltageRoundTrip` | server/DAC.cpp:29-35 | in exact arithmetic a voltage in range gives a code in range and comes back less than one step away |
| `Calibration.ConversionMonotone` | server/DAC.cpp:33-35 | the conversion keeps or reverses the order of voltages as the ends are ordered |
| `Calibration.RoundedCodeNearRange` | server/DAC.cpp:12-15 | for any rounding with binary32's bounds, a voltage in range gives a code in range if codes rise or fall to 0, and else at worst one below |
| `Accuracy.RoundedPosition` | server/DAC.cpp:12-15 | for any rounding with binary32's bounds and any voltage, the computed code is within six parts in 2^24 of the exact line, relative to the codes involved |
| `RoundedRange.InRangeCondition` | server/DAC.cpp:33-39 | a calibration keeps every voltage in range to a code in range for every rounding if and only if it is strict: codes rise, or fall to 0, or the voltage range is an integer up to 2^24 dividing the code range |
| `RoundedRange.FallingCodesEscape` | server/DAC.cpp:33-39 | for every calibration that is not strict, a rounding with which the voltage at the end, which is in range, gives the code below it |
| `RoundedRange.FallingCodesEscapeInBinary32` | server/DAC.cpp:33-39 | rounding to the nearest 24-bit significand itself lets an accepted voltage give a code out of range |
| `Devices.AcceptedCode` | server/DAC.cpp:33-43 | an accepted voltage converts to a 12-bit code with the conversion to uint16_t always defined; the code is in range, or, for a calibration that is not strict, at worst the one below its lower end |
| `Devices.Dac.SetInt` | server/DAC.cpp:49-52 | the two bytes of the view hold the low 12 bits of the code, left-justified; byte 0 is untouched |
| `Devices.Dac.SetVoltage` | server/DAC.cpp:45-47 | the view holds the packed conversion of the voltage |
| `Devices.UnpackedPacked` | server/DAC.cpp:49-52 | the 12-bit code is recovered from the two bytes |
| `Devices.Mcp4725.Execute` | server/VoltageControl.cpp:10-16 | exactly one frame is sent: the write command and the packed code |
| `Devices.Ltc2635.ExecuteWrite` | server/SiPMDac.h:69-79 | the frame sent depends on command, DAC, calibration and voltage only, whatever the shared buffer held |
| `Devices.Ltc2635.ExecuteControl` | server/SiPMDac.h:83-90 | the frame sent is the first byte and two zero bytes, whatever the shared buffer held |
| `Devices.LtcFrameDecodes` | server/SiPMDac.h:67-106 | a write frame decodes to its command, DAC and 12-bit code; for accepted voltages the code is safe |
| `Devices.LtcFramesInjective` | server/SiPMDac.h:93-106 | frames are equal if and only if command, DAC and 12-bit code are |
| `Execution.ResponseContract` | common/Command.h:176-190 | for every well-formed command, state and hardware: a value is returned exactly on success of an action with a return type, no structural or unspecified error occurs, only a UART reply that is too short or no number kills the server, and only Quit sets quit |
| `Execution.Malformed` | common/Command.h:176-190 | a command with an unknown device or action, or a wrong number of words where that is tested, touches nothing and fails with the code for it |
| `Execution.MalformedUntested` | server/CommandVoltageControl.cpp:3-44 | where the number of words is not tested, extra words are ignored, and a missing one ends a server that has the device |
| `Execution.RegisterRead` | server/CommandSipmControlRead.cpp:51-71 | a SiPM register answered in the server's notation comes back as the word it holds for Int and Uint, and as 0 for Bool |
| `Execution.RegisterReadI2c` | server/SiPMSupply.h:84-99 | over I2C a register read returns the four bytes of the answer, a Bool as 0 or 1 |
| `Execution.FloatRegisterRead` | server/SiPMSupply.h:126-131 | over UART a Float register returns what std::stof makes of the text after OK and a comma, and a text it refuses ends the server |
| `Execution.TemperatureReadValue` | server/CommandTemperatureControl.cpp:68-79 | a temperature read that succeeds asks for register 0 and returns the word of the reading |
| `Execution.BareReplyKills` | server/SiPMSupply.h:126-131 | the reply OK alone to a register read over UART ends the server |
| `Execution.FieldFormats` | server/TemperatureControl.h:60-65 | the command table gives each field of the temperature sensor the format of its width |
| `Execution.ReturnFormats` | common/CommandHumidityControl.h:12-17 | which actions of the real tables return a value, all of them floats but for the registers |
| `Execution.ShapeOf` | common/Command.cpp:104-112 | the number of words of every command of the real tables, so every index into them is in range |
| `DeviceContext.Context.Guarded` | server/CommandVoltageControl.cpp:17-42 | availability, then range, then one frame: the chip and the reply are as specified |
| `DeviceContext.Context.ExecuteVoltage` | server/CommandVoltageControl.cpp:3-45 | the switch changes the right chip or line and no other, and replies as specified |
| `DeviceContext.Context.ExecuteTemperature` | server/CommandTemperatureControl.cpp:53-64 | a field is written on the sensor object if multiplexer, number and sensor allow it |
| `DeviceContext.Context.ExecuteTemperatureRead` | server/CommandTemperatureControl.cpp:68-79 | the temperature register is asked for if multiplexer, number and sensor allow it |
| `DeviceContext.Context.ExecuteHumidity` | server/CommandHumidityControl.cpp:5-25 | measuring, reading and resetting act on the sensor object and reply as specified |
| `DeviceContext.Context.ExecuteSipmDacControl` | server/CommandSipmDacControl.cpp:51-63 | one control frame is sent if multiplexer, number and chip allow it |
| `DeviceContext.Context.ExecuteSipmDacWrite` | server/CommandSipmDacControl.cpp:90-102 | one write frame is sent if multiplexer, number and chip allow it |
| `DeviceContext.Context.Run` | common/Command.h:176-190 | executing on the device objects changes their state and replies exactly as the function Execute says |
| `Effects.ReplyError` | common/Command.h:176-190 | for every well-formed command the reply's code: success if and only if device, multiplexer and arguments allow it, and otherwise exactly the error for the reason |
| `Failures.FailureLeaves` | common/Command.h:176-190 | for every command, state and hardware: a failure leaves every line, register, reading and calibration as it was, and what was sent is a first part of what would have been sent had nothing thrown |
| `Effects.SipmDacFrame` | server/CommandSipmDacControl.cpp:3-102 | a successful SiPM DAC command appends one frame whose nibbles name the action and the DAC number modulo 4, with the converted code or 0 |
| `Effects.LastMeasurement` | server/HumidityControl.cpp:19-50 | after any history the readings are the scaled numbers in the answer to the last measurement that went through, or the initial ones if there was none or no retries are configured |
| `Effects.ReadsLastMeasurement` | server/CommandHumidityControl.cpp:15-18 | with retries configured, reads return the floats of a percentage and of degrees from which the humidity and the temperature carried by that same answer are recovered, busy or not |
| `Effects.LastFieldWrite` | server/CommandTemperatureControl.cpp:53-64 | after any history each field of the temperature sensor holds the parameter of the last write to it that went through, fitted to its width, whichever registers the positions select |
| `Effects.LastSwitch` | server/CommandVoltageControl.cpp:5-16 | after any history the high voltage line is as the last successful enable or disable left it |
| `SipmRegisters.ReadsMatch` | common/SipmRegister.h:59-100 | the read actions are the readable registers, by name, each returning its register's format |
| `SipmRegisters.WritesMatch` | common/SipmRegister.h:59-100 | the write actions are the writable registers, by name, each taking its register's format |
| `Commands.BareLines` | common/CommandQuit.h:29-33 | the lines Quit and NOpt |
| `Commands.SwitchLine` | server/CommandVoltageControl.cpp:5-16 | the line HighVoltageEnable switches on for a text that begins with true and off for any other |
| `Commands.RailLine` | server/CommandVoltageControl.cpp:17-42 | the lines HighVoltageSet and LowVoltageSet add one frame with the code of the voltage to their rail alone, or are refused |
| `Commands.FieldLine` | server/TemperatureControl.h:49-57 | the seven lines of TemperatureControl: the two messages, bit by bit, and the register they change |
| `Commands.TemperatureLine` | server/CommandTemperatureControl.cpp:68-79 | the line TemperatureRead sends byte 0 and returns the word of the reading |
| `Commands.HumidityLine` | server/CommandHumidityControl.cpp:5-25 | the four lines of HumidityControl: messages, stored readings and replies |
| `Commands.MuxLine` | server/CommandMuxControl.cpp:10-20 | the two lines of MuxControl |
| `Commands.DacControlLine` | server/CommandSipmDacControl.cpp:36-63 | the five lines of SipmDacControl: the three bytes sent |
| `Commands.DacWriteLine` | server/CommandSipmDacControl.cpp:75-102 | the three lines of SipmDacWrite: the first byte, and the converted voltage in the other two |
| `Commands.RegisterLine` | server/CommandSipmControlRead.cpp:51-71 | every line of SipmControlRead by the name of its register, over I2C |
| `Commands.RegisterWriteLine` | server/CommandSipmControlWrite.cpp:34-62 | every line of SipmControlWrite by the name of its register takes a text of the register's format |
| `VoltageSafety.WireIsAcceptedFrames` | server/CommandVoltageControl.cpp:17-42 | over any history, the frames on each rail are exactly those of the accepted requests, in order |
| `VoltageSafety.FrameCarries` | server/VoltageControl.cpp:10-16 | the frame for an accepted voltage is byte 0x40 and the code VoltageToDac gives, in the upper 12 bits |
| `VoltageSafety.WireCarriesRequests` | server/CommandVoltageControl.cpp:17-42 | over any history, the frames added to a rail are as many as the accepted voltages, and frame k carries the code of voltage k |
| `VoltageSafety.VoltageAlwaysSafe` | server/CommandVoltageControl.cpp:17-42 | over any history, every frame on a rail carries a 12-bit code in range, or, for a calibration that is not strict, at worst the code below its lower end |
| `SipmDacRange.CodeInRangeCondition` | server/DAC.cpp:33-35 | for any order of the ends, exactly which voltages give a code in the calibrated range in exact arithmetic |
| `SipmDacRange.FrameInRange` | server/DAC.cpp:45-52 | for any voltage whose conversion is defined: the 12 bits sent are the code up to 4095, and are in range exactly in sixteen bands of voltages; with rounding, up to a margin |
| `SipmDacRange.SipmDacWriteInRange` | server/CommandSipmDacControl.cpp:75-102 | a successful SiPM DAC write sends a frame with a code in range for the voltages in those bands and, up to the margin, for no others |
| `SipmDacRange.SipmDacUnguarded` | server/CommandSipmDacControl.cpp:75-87 | writes one step and twice the range beyond the maximum both succeed, sending code 0 and a code out of range |
| `Server.ServerListener.Respond` | server/server.cpp:43-51 | the code, then the value if there is one; what a failed write leaves sent |
| `Server.ServerListener.Turn` | server/server.cpp:22-52 | one turn of the command loop: it consumes bytes, and leaves the rest of the connection as specified |
| `Server.ServerListener.HandleClient` | server/server.cpp:22-52 | the command loop ends on every finite stream and does what Serve says |
| `Server.ServerListener.Listen` | server/server.cpp:13-54 | the accept loop does what ServeAll says over any sequence of connections |
| `ServerSafety.Decompose` | common/Command.cpp:96-143 | every byte stream is complete frames, unknown codes or actions, and a cut frame |
| `ServerSafety.CutFrame` | common/Command.cpp:100-112 | every proper initial part of a frame counts as cut |
| `ServerSafety.ServeCut` | server/server.cpp:26-41 | a cut frame is never executed, and answered exactly if its device code arrived |
| `ServerSafety.ServeExecutes` | server/server.cpp:22-52 | a connection executes an initial part of its complete frames up to the first Quit, and all of them if no write fails and the server lives |
| `ServerSafety.RunExecutes` | server/server.cpp:13-54 | for any bytes of any clients and any failing writes: connection by connection, an initial part of the complete frames up to the first Quit is executed, all of them unless a write to that client fails or the server dies, and every connection is served unless the server stops |
| `ServerSafety.AllExecuted` | server/server.cpp:13-54 | if no write fails and the server does not die: over all connections, exactly the complete frames in order up to and including the first Quit |
| `ServerSafety.QuitIsLast` | common/CommandQuit.h:29-33 | whatever bytes arrive and writes fail, nothing runs after Quit |
| `ServerSafety.RealIsLawful` | common/Command.h:176-190 | the real execute bodies meet what the server and lockstep theorems assume of an executor |
| `Client.CodeOrder` | common/Command.h:54-64 | the error codes travel as their positions in the order of declaration, at both ends |
| `Client.SendCommand` | client/client.cpp:20-53 | one exchange: what is written, what is read of the reply and what it comes to, including failures |
| `Client.RunLine` | client/client.cpp:61-73 | a blank or invalid line sends nothing, a bad number ends the client, any other line is one exchange |
| `Client.RunCommands` | client/client.cpp:55-75 | the line loop does what Converse says, including the exits of batch mode and the end after a failure that leaves the socket bad |
| `Client.ReadOfReply` | common/Command.h:164-173 | a reply that keeps the contract is read exactly as far as the server wrote it |
| `Client.NothingAfterBad` | client/client.cpp:59 | a failure after which the socket is bad is the last exchange |
| `Client.HowItEnds` | client/client.cpp:55-75 | while the socket is good every command is sent, and the client is ended by a bad number and by nothing else |
| `Client.UnknownCodeExits` | client/client.cpp:30-34 | in batch mode a code that is no known error makes the client leave with -1 |
| `EndToEnd.RunIsHistory` | server/server.cpp:13-54 | whatever bytes arrive and writes fail, a run of the server is a history: its events are the commands it executed and leave the devices in the state the run does |
| `EndToEnd.RunWireIsAcceptedFrames` | server/server.cpp:13-54 | over any run the frames added on a rail are exactly those of the accepted requests among the executed commands, in order |
| `EndToEnd.RunWireCarriesRequests` | server/server.cpp:13-54 | over any run, frame k added to a rail carries the code of accepted voltage k |
| `EndToEnd.ServerKeepsVoltageSafe` | server/server.cpp:13-54 | whatever bytes any clients send, the same holds of every frame ever sent to a voltage DAC |
| `Histories.OutcomeAt` | server/server.cpp:22-41 | outcome i of a list of commands is that of executing command i in the state the commands before it left |
| `Histories.OutcomesLawful` | server/server.cpp:22-52 | every outcome is a reply keeping its command's contract but for a last one that ends the server, and they reach up to the first Quit |
| `EndToEnd.ServeRaised` | server/server.cpp:32-37 | an exception from an execute body is answered with code 5, and the connection goes on |
| `EndToEnd.ServerAnswers` | server/server.cpp:22-52 | commands sent back to back leave the server, its log and its output exactly as executing them in order does, with the data of every outcome written in full |
| `EndToEnd.ClientReads` | client/client.cpp:55-75 | from such replies the client's results are reply i for command i and failures after the last |
| `EndToEnd.ScriptMeetsServer` | client/client.cpp:20-75 | a whole script against the server: result i is what executing command i came to, or a failure after Quit or the end of the server, and the client reads exactly the bytes written |
| `EndToEnd.RealSetting` | common/Command.cpp:76-92 | the real tables, devices and any script meet the assumptions of the interleaved model |
| `EndToEnd.RunsAgree` | client/client.cpp:20-75 | a finished interleaved run leaves the server, the bytes sent to the client and the client's results as the two loops run one after the other do |
| `EndToEnd.BatchExit` | client/client.cpp:36-52 | in batch mode one command is sent, and the exit code says what came of it on the server: 0, 1, 3, 4, 8, or -1 when the server ended |
| `Lockstep.NextKeeps` | client/client.cpp:20-53 | every step of either program keeps the invariant tying both queues and both positions together |
| `Lockstep.NextRecords` | server/server.cpp:22-52 | every step keeps the server as executing the commands so far leaves it, and the replies the data of their outcomes |
| `Lockstep.Lockstep` | client/client.cpp:20-75 | in every state of every interleaving: the server has executed an initial part of the script, result i is what executing command i came to, and both queues are empty when the client is about to send to a live server |
| `Lockstep.Progress` | server/server.cpp:22-52 | while the client has commands left, some step is possible: no deadlock |
| `Lockstep.RunsEnd` | server/server.cpp:22-52 | no run takes more than sixteen steps a command |
| `Lockstep.RunsComplete` | client/client.cpp:55-75 | a run that cannot go on has executed the script up to its first Quit and delivered every reply |
| `Config.ContextInput.Line` | server/Input.cpp:174-224 | one configuration line updates the fields as specified, or throws |
| `Config.ContextInput.Load` | server/Input.cpp:171-226 | the line loop does what ParseAll says |
| `ConfigMeaning.LineMeans` | server/Input.cpp:75-224 | a line changes exactly the key it names, or the SIPM part, by a value independent of the settings; it throws exactly on a bad number |
| `ConfigMeaning.FileAccepted` | server/Input.cpp:171-226 | a file is accepted if and only if no line holds a bad number |
| `ConfigMeaning.LastLineWins` | server/Input.cpp:75-224 | outside SIPM each key holds the value of the last line that sets it, or its initial value |
| `ConfigMeaning.NumberKept` | server/Input.cpp:75-110 | after any accepted file an integer field holds the number its last line wrote if and only if the number fits the field |
| `ConfigMeaning.SipmNumberKept` | server/Input.cpp:115-141 | after any accepted file, a SIPM bus or device number written after the last line selecting I2C holds what its last line wrote if and only if that fits 8 bits |
| `ConfigMeaning.WideNumberWraps` | server/Input.cpp:75-95 | the line HV BusId 257 is accepted and sets bus 1 |
| `ConfigMeaning.SwapLines` | server/Input.cpp:171-226 | swapping adjacent lines for different keys anywhere changes nothing, errors included |
| `ConfigMeaning.SipmIsItsLines` | server/Input.cpp:115-141 | the SIPM part depends on the SIPM lines alone |
| `ConfigMeaning.PathHistory` | server/Input.cpp:119-135 | a path counts only after the last line selecting UART, which clears it |
| `ConfigMeaning.BusHistory` | server/Input.cpp:124-126 | bus and device numbers count only after the last line selecting I2C, which clears them |
| `ConfigMeaning.SipmAlwaysReady` | server/Input.cpp:115-141 | after every initial part of every accepted file the selected implementation has its data |
| `ConfigMeaning.ControlAlwaysHasData` | server/SiPMSupply.cpp:3-27 | the two branches of make_control that report missing data are never reached |
| `ConfigMeaning.ControlMade` | server/SiPMSupply.cpp:3-27 | the control made is that of the last selection, with the last path or the last numbers given after it, and none without a selection |
| `ConfigNames.HvNames` | server/Input.cpp:29-52 | what each of the six names of an HV line sets |
| `ConfigNames.LvNames` | server/Input.cpp:29-52 | what each of the six names of an LV line sets |
| `ConfigNames.SipmDacNames` | server/Input.cpp:29-52 | what each of the six names of a SipmDac line sets |
| `ConfigNames.MuxNames` | server/Input.cpp:200-202 | what the names of a Mux line set |
| `ConfigNames.TemperatureNames` | server/Input.cpp:203-205 | what the names of a Temperature line set |
| `ConfigNames.HumidityNames` | server/Input.cpp:206-209 | what the names of a Humidity line set |
| `ConfigNames.GpioNames` | server/Input.cpp:65-68 | what the line of GpioChip sets |
| `ConfigNames.SipmNames` | server/Input.cpp:115-141 | what each SIPM line does: the three implementations, the path and the two numbers |
| `ConfigNames.OtherNames` | server/Input.cpp:174-224 | every other line changes nothing |
| `Tmp112.WriteConfiguration` | server/TemperatureControl.h:80-93 | one bit or two are set in place, as Merge says |
| `Tmp112.Sensor.WriteConfig` | server/TemperatureControl.h:95-108 | the register that the field's position selects is read, merged in place and written back, with the messages sent and what a throwing access leaves |
| `Tmp112.BytesHoldBits` | server/TemperatureControl.h:103 | the two bytes sent hold the word's bits, bit 0 lowest in the second |
| `Tmp112.FieldHoldsLastWrite` | server/TemperatureControl.h:80-108 | after any writes a field holds the last value written to it, modulo 2 or 4, or its initial value, whether or not fields share a register |
| `Tmp112.UntouchedBit` | server/TemperatureControl.h:80-108 | a bit of a register keeps its value if no write touches its field there |
| `Tmp112.WritesCommute` | server/TemperatureControl.h:49-57 | writes to different fields commute on the registers |
| `Aht10.RightJustify` | server/HumidityControl.cpp:42 | the in-place shift of bytes 1 to 3 by four bits |
| `Aht10.Extract` | server/HumidityControl.cpp:38-43 | the two 20-bit numbers are read from the answer although they share a byte that is overwritten |
| `Aht10.FieldsOfAnswer` | server/HumidityControl.cpp:38-43 | both numbers come back from the six bytes that carry them |
| `Aht10.AnswerOfFields` | server/HumidityControl.cpp:38-43 | every six bytes carry exactly the numbers read from them |
| `Aht10.Scales` | server/HumidityControl.cpp:38-44 | the scales: -50 degrees and 0 percent at 0, 50 of either in the middle, and equal steps |
| `Aht10.ReadingsRecover` | server/HumidityControl.cpp:38-44 | for any rounding with binary32's bounds, each number is recovered from its rounded reading to within half a step |
| `Aht10.ReadingsDistinct` | server/HumidityControl.cpp:38-44 | rounding keeps the readings of different numbers apart |
| `Aht10.Sensor.RequestRead` | server/HumidityControl.cpp:19-50 | the first answer is taken whatever its busy bit, scaled and stored unswapped; it fails exactly when no retries are configured or an access throws |
| `Aht10.OrderMatters` | server/HumidityControl.cpp:38-43 | reading the temperature after the shift would be right only if its top bits equal the humidity's low bits |

## Left out

- Real sockets, I2C, GPIO, termios, sleeps and logging: only their effects appear, as parameters and queues.
- Help text, argument handling and both `main` functions: user interface.
- The register numbers of SipmRegister.h and the bytes of the messages to the SiPM supply.
- Printing and parsing of float text: `std::stof` is an arbitrary function, and floats are not printed.
- Overflow to infinity inside the calibration arithmetic, underflow, and fused multiply-add: `Rounds` describes rounding of each operation in the normal range.
- Bool text that is blank, as in the UART reply `OK,`: the source then returns an indeterminate value, the model false.
- Calibrations with a NaN or infinite end, which `std::stof` accepts in a configuration: ends are real numbers here. With VMax not a number the source accepts the voltage VMin alone and its conversion is undefined.
- Calibrations whose voltage ends coincide: the source divides by zero; in the model the conversion is then unspecified, and the safety lemmas require distinct ends.
- The setters of DAC, which nothing calls.
- Construction of the devices from the configuration: contexts start from any set of present devices and calibrations.
- Which of two sensors or DAC chips the multiplexer selects: both channel codes in the source are the same.
- The conversion of the two bytes of a temperature reading: the word returned is an arbitrary answer of the hardware.
- Execution.Malformed: of a command with words too few, which no reader of frames makes, does not model the log line printed first, which reads beyond the words; nor does Execution.MalformedUntested.
- DeviceContext.Context.Run: treats accesses to the SiPM supply and the multiplexer as hardware outcomes without the bytes sent.
- Aht10.Extract: is the extraction alone; the busy bit, the retries and the scaling are in Aht10.Sensor.RequestRead, without the pauses.
- Config.ContextInput.Line: calls the parsers of the single structs as functions returning the new struct, where the source updates it by reference.
- Client.RunCommands: takes from a parameter, exchange by exchange, whether the socket is still good after a failure, which the source leaves to the socket.
- Strings longer than the 256-byte UART buffer, and partial UART reads.
