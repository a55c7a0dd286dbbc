# VirtualC64 core logic in Dafny

This project models three pieces of the VirtualC64 Commodore 64 emulator and proves properties of them.

- **CIA register fields** (`cia.dfy`, module `CiaRegisters`). The complex interface adapter keeps its state in a few registers:
  - the 16-bit latch and counter of timers A and B, with byte accessors;
  - the interrupt mask (IMR), the interrupt control register (ICR) and the timer control registers (CRA, CRB), with single-bit setters, getters and toggles;
  - the 64-bit `delay` word, a pipeline with one bit per scheduled action and stage; `reloadTimerA/B` cancels one of its bits;
  - the address windows of CIA 1 ($DC00-$DCFF) and CIA 2 ($DD00-$DDFF).

  The chip is a class `Cia` whose methods change its fields in place. The constant layout of the delay bits and `DelayMask` is proved distinct, shift-aligned and exact.
- **Cartridge bank switching** (`cartridges.dfy`, module `CustomCartridges`). Each custom cartridge type reacts to reads and writes of the I/O 1 ($DE00-$DEFF), I/O 2 ($DF00-$DFFF) or ROM areas in its own way:
  - it selects ROM banks;
  - it drives the GAME and EXROM lines of the expansion port and, for the Final Cartridge III, the NMI line;
  - some types store a register value, and the Epyx Fast Load keeps a capacitor deadline in cycles.

  The shared state is a `Cartridge` object. The chips banked in are a log of `bankIn` calls, oldest first. Each cartridge type is a class that updates that object.
- **Basic helpers** (`basic.dfy`, module `Basic`). These are:
  - the fixed-width decimal, hexadecimal and binary printers that fill a caller's buffer;
  - the PETSCII and ASCII character filters;
  - the PETSCII-to-Unicode translation of a NUL-terminated string;
  - the filename and suffix functions on paths.

  The printers are proved against `FixedDigits`, and reading their output back gives the printed value.

Foreign reads enter as function parameters: the cartridge ROM behind `Cartridge::peek`, and the base class's `Cartridge::peekIO1`. The C64 cycle counter enters as the parameter `now`.

## Model

| member | source | states |
|---|---|---|
| CiaRegisters.AndNotClearsOnly | C64/CIA.h:378 | and-ing the delay word with the complement of a mask clears that mask and keeps every other bit |
| CiaRegisters.DelayBitsDistinct | C64/CIA.h:34-86 | each of the 50 named delay bits is a single bit, and in increasing order they are strictly increasing, so no two names share a bit |
| CiaRegisters.DelayStagesShift | C64/CIA.h:34-86 | stage k+1 of every multi-stage action is its stage k shifted left by one |
| CiaRegisters.DelayMaskClearsStageZero | C64/CIA.h:90 | DelayMask clears every stage-0 bit and keeps every later stage and every other bit; for the sixteen actions whose next higher bit is another action's stage 0 (all but TODInt, SetCnt and SerClk), the last stage shifted left by one is masked away, while the unnamed bits above TODInt0, SetCnt3 and SerClk3 are kept |
| CiaRegisters.IsCia1Addr | C64/CIA.h:582-583 | an address is in CIA 1 iff its high byte is $DC |
| CiaRegisters.IsCia2Addr | C64/CIA.h:640-641 | an address is in CIA 2 iff its high byte is $DD; no address is in both CIA 1 and CIA 2 |
| CiaRegisters.IsCiaAddr | C64/CIA.h:230 | an address is in the CIA space iff it is in CIA 1 or in CIA 2 |
| CiaRegisters.Cia.IsInterruptEnabledA | C64/CIA.h:287 | true iff IMR bit 0 is set |
| CiaRegisters.Cia.SetInterruptEnabledA | C64/CIA.h:290 | IMR bit 0 becomes b, the getter then returns b, and IMR bits 1-7 are unchanged |
| CiaRegisters.Cia.ToggleInterruptEnableFlagA | C64/CIA.h:293 | IMR becomes IMR xor $01, so the getter flips and a second toggle restores IMR |
| CiaRegisters.Cia.IsSignalPendingA | C64/CIA.h:296 | true iff ICR bit 0 is set |
| CiaRegisters.Cia.SetSignalPendingA | C64/CIA.h:299 | ICR bit 0 becomes b, the getter then returns b, and ICR bits 1-7 are unchanged |
| CiaRegisters.Cia.TogglePendingSignalFlagA | C64/CIA.h:302 | ICR becomes ICR xor $01, so the getter flips |
| CiaRegisters.Cia.IsInterruptEnabledB | C64/CIA.h:305 | true iff IMR bit 1 is set |
| CiaRegisters.Cia.SetInterruptEnabledB | C64/CIA.h:308 | IMR bit 1 becomes b and every other IMR bit is unchanged |
| CiaRegisters.Cia.ToggleInterruptEnableFlagB | C64/CIA.h:311 | IMR becomes IMR xor $02, so the getter flips |
| CiaRegisters.Cia.IsSignalPendingB | C64/CIA.h:314 | true iff ICR bit 1 is set |
| CiaRegisters.Cia.SetSignalPendingB | C64/CIA.h:317 | ICR bit 1 becomes b and every other ICR bit is unchanged |
| CiaRegisters.Cia.TogglePendingSignalFlagB | C64/CIA.h:320 | ICR becomes ICR xor $02, so the getter flips |
| CiaRegisters.Cia.IsInterruptEnabledTOD | C64/CIA.h:323 | true iff ICR bit 2 is set (the flag lives in ICR, not IMR) |
| CiaRegisters.Cia.SetInterruptEnabledTOD | C64/CIA.h:326 | ICR bit 2 becomes b and every other ICR bit is unchanged; IMR is not touched |
| CiaRegisters.Cia.IsInterruptEnabledFlg | C64/CIA.h:329 | true iff ICR bit 4 is set (the flag lives in ICR, not IMR) |
| CiaRegisters.Cia.SetInterruptEnabledFlg | C64/CIA.h:332 | ICR bit 4 becomes b and every other ICR bit is unchanged; IMR is not touched |
| CiaRegisters.Cia.GetLatchA | C64/CIA.h:339 | the 16-bit latchA is its high byte shifted left by 8 or-ed with its low byte |
| CiaRegisters.Cia.SetLatchA | C64/CIA.h:342 | latchA becomes the value, and the byte getters return its low and high byte |
| CiaRegisters.Cia.GetLatchALo | C64/CIA.h:345 | the result is the low byte: with the untouched upper half of latchA it rebuilds latchA |
| CiaRegisters.Cia.SetLatchALo | C64/CIA.h:348 | the low byte of latchA becomes the value and the high byte is unchanged |
| CiaRegisters.Cia.GetLatchAHi | C64/CIA.h:351 | the result is the high byte: with the untouched lower half of latchA it rebuilds latchA |
| CiaRegisters.Cia.SetLatchAHi | C64/CIA.h:354 | the high byte of latchA becomes the value and the low byte is unchanged |
| CiaRegisters.Cia.GetCounterA | C64/CIA.h:357 | the 16-bit counterA is its high byte shifted left by 8 or-ed with its low byte |
| CiaRegisters.Cia.SetCounterA | C64/CIA.h:360 | counterA becomes the value, and the byte getters return its low and high byte |
| CiaRegisters.Cia.GetCounterALo | C64/CIA.h:363 | the result is the low byte: with the untouched upper half of counterA it rebuilds counterA |
| CiaRegisters.Cia.SetCounterALo | C64/CIA.h:366 | the low byte of counterA becomes the value and the high byte is unchanged |
| CiaRegisters.Cia.GetCounterAHi | C64/CIA.h:369 | the result is the high byte: with the untouched lower half of counterA it rebuilds counterA |
| CiaRegisters.Cia.SetCounterAHi | C64/CIA.h:372 | the high byte of counterA becomes the value and the low byte is unchanged |
| CiaRegisters.Cia.ReloadTimerA | C64/CIA.h:374-378 | counterA becomes latchA; the CountA2 bit of delay is cleared and every other delay bit is unchanged; the latch is not touched |
| CiaRegisters.Cia.IsStartedA | C64/CIA.h:381 | true iff CRA bit 0 is set |
| CiaRegisters.Cia.SetStartedA | C64/CIA.h:384 | CRA bit 0 becomes b and every other CRA bit is unchanged |
| CiaRegisters.Cia.ToggleStartFlagA | C64/CIA.h:387 | CRA becomes CRA xor $01, so the getter flips |
| CiaRegisters.Cia.ForceLoadStrobeA | C64/CIA.h:390 | true iff CRA bit 4 is set |
| CiaRegisters.Cia.WillIndicateUnderflowA | C64/CIA.h:393 | true iff CRA bit 1 is set |
| CiaRegisters.Cia.WillIndicateUnderflowAsPulseA | C64/CIA.h:396 | true iff CRA bit 2 is clear |
| CiaRegisters.Cia.SetIndicateUnderflowA | C64/CIA.h:399 | CRA bit 1 becomes b and every other CRA bit is unchanged |
| CiaRegisters.Cia.ToggleUnderflowFlagA | C64/CIA.h:402 | CRA becomes CRA xor $02, so the getter flips |
| CiaRegisters.Cia.IsOneShotA | C64/CIA.h:405 | true iff CRA bit 3 is set |
| CiaRegisters.Cia.SetOneShotA | C64/CIA.h:408 | CRA bit 3 becomes b and every other CRA bit is unchanged |
| CiaRegisters.Cia.ToggleOneShotFlagA | C64/CIA.h:411 | CRA becomes CRA xor $08, so the getter flips and a second toggle restores CRA |
| CiaRegisters.Cia.IsCountingClockTicksA | C64/CIA.h:414 | true iff CRA bit 5 is clear |
| CiaRegisters.Cia.GetControlRegA | C64/CIA.h:417 | as written: the result is false iff every bit of CRA is clear, i.e. the register truncated to a bool |
| CiaRegisters.Cia.ControlRegA | C64/CIA.h:416-417 | corrected: returns CRA itself; its bits agree with every decoder above and it is non-zero iff GetControlRegA is true |
| CiaRegisters.Cia.SetControlRegA | C64/CIA.h:420 | CRA becomes the value and ControlRegA returns it |
| CiaRegisters.Cia.GetLatchB | C64/CIA.h:427 | the 16-bit latchB is its high byte shifted left by 8 or-ed with its low byte |
| CiaRegisters.Cia.SetLatchB | C64/CIA.h:430 | latchB becomes the value, and the byte getters return its low and high byte |
| CiaRegisters.Cia.GetLatchBLo | C64/CIA.h:433 | the result is the low byte: with the untouched upper half of latchB it rebuilds latchB |
| CiaRegisters.Cia.SetLatchBLo | C64/CIA.h:436 | the low byte of latchB becomes the value and the high byte is unchanged |
| CiaRegisters.Cia.GetLatchBHi | C64/CIA.h:439 | the result is the high byte: with the untouched lower half of latchB it rebuilds latchB |
| CiaRegisters.Cia.SetLatchBHi | C64/CIA.h:442 | the high byte of latchB becomes the value and the low byte is unchanged |
| CiaRegisters.Cia.GetCounterB | C64/CIA.h:445 | the 16-bit counterB is its high byte shifted left by 8 or-ed with its low byte |
| CiaRegisters.Cia.SetCounterB | C64/CIA.h:448 | counterB becomes the value, and the byte getters return its low and high byte |
| CiaRegisters.Cia.GetCounterBLo | C64/CIA.h:451 | the result is the low byte: with the untouched upper half of counterB it rebuilds counterB |
| CiaRegisters.Cia.SetCounterBLo | C64/CIA.h:454 | the low byte of counterB becomes the value and the high byte is unchanged |
| CiaRegisters.Cia.GetCounterBHi | C64/CIA.h:457 | the result is the high byte: with the untouched lower half of counterB it rebuilds counterB |
| CiaRegisters.Cia.SetCounterBHi | C64/CIA.h:460 | the high byte of counterB becomes the value and the low byte is unchanged |
| CiaRegisters.Cia.ReloadTimerB | C64/CIA.h:462-466 | counterB becomes latchB; the CountB2 bit of delay is cleared and every other delay bit is unchanged; the latch is not touched |
| CiaRegisters.Cia.IsStartedB | C64/CIA.h:469 | true iff CRB bit 0 is set |
| CiaRegisters.Cia.SetStartedB | C64/CIA.h:472 | CRB bit 0 becomes b and every other CRB bit is unchanged |
| CiaRegisters.Cia.ToggleStartFlagB | C64/CIA.h:475 | CRB becomes CRB xor $01, so the getter flips |
| CiaRegisters.Cia.ForceLoadStrobeB | C64/CIA.h:478 | true iff CRB bit 4 is set |
| CiaRegisters.Cia.WillIndicateUnderflowB | C64/CIA.h:481 | true iff CRB bit 1 is set |
| CiaRegisters.Cia.WillIndicateUnderflowAsPulseB | C64/CIA.h:484 | true iff CRB bit 2 is clear |
| CiaRegisters.Cia.SetIndicateUnderflowB | C64/CIA.h:487 | CRB bit 1 becomes b and every other CRB bit is unchanged |
| CiaRegisters.Cia.ToggleUnderflowFlagB | C64/CIA.h:490 | CRB becomes CRB xor $02, so the getter flips |
| CiaRegisters.Cia.IsOneShotB | C64/CIA.h:493 | true iff CRB bit 3 is set |
| CiaRegisters.Cia.SetOneShotB | C64/CIA.h:496 | CRB bit 3 becomes b and every other CRB bit is unchanged |
| CiaRegisters.Cia.ToggleOneShotFlagB | C64/CIA.h:499 | CRB becomes CRB xor $08, so the getter flips and a second toggle restores CRB |
| CiaRegisters.Cia.IsCountingClockTicksB | C64/CIA.h:502 | true iff CRB bit 5 is clear |
| CiaRegisters.Cia.GetControlRegB | C64/CIA.h:505 | as written: the result is false iff every bit of CRB is clear, i.e. the register truncated to a bool |
| CiaRegisters.Cia.ControlRegB | C64/CIA.h:504-505 | corrected: returns CRB itself; its bits agree with every decoder above and it is non-zero iff GetControlRegB is true |
| CiaRegisters.Cia.SetControlRegB | C64/CIA.h:508 | CRB becomes the value and ControlRegB returns it |
| CiaRegisters.GetControlRegALosesValue | C64/CIA.h:417 | two machines with CRA $01 and $11 get the same GetControlRegA result though their registers differ |
| CiaRegisters.GetControlRegBLosesValue | C64/CIA.h:505 | two machines with CRB $01 and $11 get the same GetControlRegB result though their registers differ |
| CiaRegisters.LoadTimerA | C64/CIA.h:345-378 | composed property of setLatchAHi, setLatchALo and reloadTimerA (no single source function makes this sequence of calls): the counter starts from the 16-bit value the two bytes make up; delay loses only CountA2; IMR, ICR, CRA, CRB and timer B are untouched |
| CustomCartridges.FinalIII.Reset | C64/CustomCartridges.cpp:55-57 | bank 0 is banked in and both initial lines are low (16 KB configuration at the next reset) |
| CustomCartridges.FinalIII.PeekIO1 | C64/CustomCartridges.cpp:60-66 | a read of $DExx returns the ROM byte at $9Exx |
| CustomCartridges.FinalIII.PeekIO2 | C64/CustomCartridges.cpp:68-74 | a read of $DFxx returns the ROM byte at $9Fxx |
| CustomCartridges.FinalIII.PokeIO2 | C64/CustomCartridges.cpp:76-121 | at $DFFF: GAME is bit 5 and EXROM is bit 4 whatever bit 7 is, the NMI line is low iff bit 6 is clear, banks value&3 then (value&3)+4 are banked in; any other address changes nothing |
| CustomCartridges.FinalIII.PressFirstButton | C64/CustomCartridges.cpp:123-128 | ultimax mode (GAME low, EXROM high), the NMI line pulled low, banks 0 and 4 banked in |
| CustomCartridges.SimonsBasic.Reset | C64/CustomCartridges.cpp:146-151 | banks 0 and 1 are banked in, in that order |
| CustomCartridges.SimonsBasic.PeekIO1 | C64/CustomCartridges.cpp:153-161 | returns what ReadIO1 returns; GAME goes high iff the address is $DE00, otherwise it keeps its value |
| CustomCartridges.SimonsBasic.ReadIO1 | C64/CustomCartridges.cpp:163-167 | returns the base cartridge's I/O 1 value and changes nothing |
| CustomCartridges.SimonsBasic.PokeIO1 | C64/CustomCartridges.cpp:169-176 | GAME goes low iff the address is $DE00, otherwise it keeps its value |
| CustomCartridges.Ocean.PokeIO1 | C64/CustomCartridges.cpp:193-198 | at $DE00 bank value&$3F, which is below 64, is banked in; any other address changes nothing |
| CustomCartridges.FunplayBank | C64/CustomCartridges.cpp:225-226 | the bank is below 16; bank bits 0-2 are value bits 3-5 and bank bit 3 is value bit 0 |
| CustomCartridges.FunplayValue | C64/CustomCartridges.cpp:208-215 | a value for each of the 16 banks, never the disable code $86 |
| CustomCartridges.FunplayReachesEveryBank | C64/CustomCartridges.cpp:205-229 | every bank below 16 is selected by FunplayValue of it, which is not $86 |
| CustomCartridges.Funplay.PokeIO1 | C64/CustomCartridges.cpp:205-229 | $86 at $DE00 raises GAME and EXROM and banks nothing; any other value at $DE00 banks FunplayBank(value) and leaves the lines alone; other addresses change nothing |
| CustomCartridges.Supergames.PokeIO2 | C64/CustomCartridges.cpp:235-261 | at $DF00 EXROM goes low, GAME becomes bit 2, and bank value&3 is banked in; other addresses change nothing |
| CustomCartridges.EpyxFastLoad.Reset | C64/CustomCartridges.cpp:267-277 | the initial lines become GAME high and EXROM low, and the capacitor is discharged |
| CustomCartridges.EpyxFastLoad.Execute | C64/CustomCartridges.cpp:279-283 | before the deadline nothing changes; after it both lines are high |
| CustomCartridges.EpyxFastLoad.DischargeCapacitor | C64/CustomCartridges.cpp:285-300 | the deadline becomes now + 512, EXROM goes low and GAME high |
| CustomCartridges.EpyxFastLoad.CheckCapacitor | C64/CustomCartridges.cpp:302-321 | true iff now <= deadline, and then the lines are unchanged; otherwise both lines go high |
| CustomCartridges.EpyxFastLoad.Peek | C64/CustomCartridges.cpp:324-329 | returns what Read returns and discharges the capacitor |
| CustomCartridges.EpyxFastLoad.Read | C64/CustomCartridges.cpp:331-335 | returns the ROM byte and changes nothing |
| CustomCartridges.EpyxFastLoad.PeekIO1 | C64/CustomCartridges.cpp:337-342 | returns what ReadIO1 returns (0) and discharges the capacitor |
| CustomCartridges.EpyxFastLoad.ReadIO1 | C64/CustomCartridges.cpp:344-348 | returns 0 |
| CustomCartridges.EpyxFastLoad.PeekIO2 | C64/CustomCartridges.cpp:350-355 | a read of $DFxx returns byte $1Fxx of chip 0, and any address reads one of its last 256 bytes |
| CustomCartridges.Westermann.PeekIO2 | C64/CustomCartridges.cpp:361-369 | returns what ReadIO2 returns; GAME goes high iff the address is in $DF00-$DFFF |
| CustomCartridges.Westermann.ReadIO2 | C64/CustomCartridges.cpp:371-375 | returns 0 |
| CustomCartridges.Rex.PeekIO2 | C64/CustomCartridges.cpp:381-397 | returns what ReadIO2 returns; $DF00-$DFBF raises both lines, $DFC0-$DFFF gives EXROM low and GAME high, other addresses change nothing |
| CustomCartridges.Rex.ReadIO2 | C64/CustomCartridges.cpp:399-403 | returns 0 |
| CustomCartridges.Zaxxon.Peek | C64/CustomCartridges.cpp:409-429 | $8000-$8FFF banks in 1 and reads the address, $9000-$9FFF banks in 2 and reads 4 KB lower, any other address reads through without switching |
| CustomCartridges.Zaxxon.Read | C64/CustomCartridges.cpp:431-435 | returns the ROM byte and never switches banks |
| CustomCartridges.MagicDesk.PeekIO1 | C64/CustomCartridges.cpp:441-445 | every I/O 1 address returns the stored register |
| CustomCartridges.MagicDesk.PokeIO1 | C64/CustomCartridges.cpp:447-464 | every address stores value&$8F, which every later PeekIO1 returns; at $DE00 EXROM becomes bit 7 and bank value&$0F is banked in; elsewhere the lines and banks are unchanged |
| CustomCartridges.Comal80.Reset | C64/CustomCartridges.cpp:470-477 | EXROM and GAME go low and bank 0 is banked in |
| CustomCartridges.Comal80.PeekIO1 | C64/CustomCartridges.cpp:479-483 | every I/O 1 address returns the stored register |
| CustomCartridges.Comal80.PeekIO2 | C64/CustomCartridges.cpp:485-489 | returns 0 |
| CustomCartridges.Comal80.PokeIO1 | C64/CustomCartridges.cpp:491-519 | in $DE00-$DEFF: stores value&$C7 (returned by every later PeekIO1), banks value&3; bits 7-5 %111 raise both lines, %010 gives EXROM low and GAME high, anything else both low; other addresses change nothing |
| Basic.UnicodeOf | C64/basic.cpp:49 | base + byte when the sum fits in 16 bits, otherwise the sum minus $10000 |
| Basic.StrLen | C64/basic.cpp:48 | the index of the first NUL: every earlier byte is non-zero |
| Basic.TranslateToUnicode | C64/basic.cpp:41-52 | for i below n = min(strlen, max) unicode[i] is UnicodeOf(base, petscii[i]), unicode[n] is 0, and the rest of the buffer is unchanged |
| Basic.Petscii2Printable | C64/basic.cpp:54-59 | c if $20 <= c <= $7E, subst otherwise; so the result is printable or subst |
| Basic.Petscii2PrintableIdempotent | C64/basic.cpp:54-59 | filtering twice with the same substitute equals filtering once |
| Basic.ToUpper | C64/basic.cpp:67 | a-z move down by $20, every other byte is unchanged |
| Basic.Ascii2Pet | C64/basic.cpp:61-74 | NUL maps to NUL and only NUL does; $20-$5D are kept, a-z become A-Z, anything else becomes a space; so every result is 0 or in $20-$5D |
| Basic.Ascii2PetIdempotent | C64/basic.cpp:61-74 | converting a converted character again changes nothing |
| Basic.FixedDigits | C64/basic.cpp:79-84 | exactly width characters, each a digit of the base |
| Basic.ParseFixedDigits | C64/basic.cpp:76-96 | reading the digits back in the base gives the value whenever it fits in width digits |
| Basic.SprintDigits | C64/basic.cpp:76-138 | the first width characters are FixedDigits of the value, then a NUL, and the buffer beyond is unchanged |
| Basic.Sprint8d | C64/basic.cpp:76-85 | three decimal digits that read back as the value, then a NUL; nothing beyond is written |
| Basic.Sprint8x | C64/basic.cpp:87-96 | two hexadecimal digits 0-9A-F that read back as the value, then a NUL; nothing beyond is written |
| Basic.Sprint16d | C64/basic.cpp:108-117 | five decimal digits that read back as the value, then a NUL; nothing beyond is written |
| Basic.Sprint16x | C64/basic.cpp:119-128 | four hexadecimal digits that read back as the value, then a NUL; nothing beyond is written |
| Basic.BitOf | C64/basic.cpp:102-103 | bit k, the lowest bit after k right shifts by one, is 0 or 1 |
| Basic.FixedBitsAt | C64/basic.cpp:101-104 | character k of the width binary digits is '1' iff bit width-1-k of the value is set, and '0' otherwise |
| Basic.Sprint8b | C64/basic.cpp:98-106 | s[i] is '1' iff bit 7-i of the value is set and '0' otherwise; the eight digits read back in base 2 as the value; then a NUL at s[8]; nothing beyond is written |
| Basic.Sprint16b | C64/basic.cpp:130-138 | s[i] is '1' iff bit 15-i of the value is set and '0' otherwise; the sixteen digits read back in base 2 as the value; then a NUL at s[16]; nothing beyond is written |
| Basic.LastIndexOf | C64/basic.cpp:145 | the index of c with no c after it, or -1 exactly when c does not occur |
| Basic.ExtractFilename | C64/basic.cpp:140-147 | a suffix of the path with no '/', preceded by '/' unless it is the whole path; the whole path when it has no '/' |
| Basic.ExtractSuffix | C64/basic.cpp:149-156 | a suffix of the path with no '.', preceded by '.' when the path has one; empty when it has none |
| Basic.SplitAtSuffix | C64/basic.cpp:167-170 | a name with a non-empty suffix is its stem, a '.', and the suffix |
| Basic.ExtractFilenameWithoutSuffix | C64/basic.cpp:158-175 | result + '.' + suffix is the filename when the suffix is non-empty, otherwise the result is the filename; it never contains '/' |
| Basic.CheckFileSuffix | C64/basic.cpp:177-191 | true iff the suffix is no longer than the name and the name ends with it; a longer suffix never matches |
| Basic.CheckFileSuffixEndsWith | C64/basic.cpp:177-191 | agrees with the character-by-character comparison from the end in both directions |
| Basic.AppendedSuffixIsChecked | C64/basic.cpp:177-191 | any name followed by a suffix passes the check for that suffix |

## Left out

- The CIA's per-cycle behaviour is not part of this model: `executeOneCycle`, `peek`, `poke`, the time-of-day clock, the serial register and the ports. Their bodies are in `CIA.cpp` and `TOD.h`, which are not part of this model. The delay pipeline is therefore modelled by its bit layout only.
- The interrupt-line callbacks (`pullDownInterruptLine`, `releaseInterruptLine`), joystick polling, `dumpState` and `dumpTrace` call into the CPU and the user interface.
- `C64/CustomCartridges.h`, `C64/IEC.h` and `C64/ControlPort.h` hold declarations only.
- CustomCartridges.FinalIII.Reset: the copying of the upper half of each ROM chip into four extra chips at $E000 is memory management and is not modelled. Only the bank and the initial lines are.
- `FinalIII::pressSecondButton` copies RAM and resets the whole machine, which is outside this model.
- CustomCartridges.EpyxFastLoad.Reset: the call to `Cartridge::reset` is base-class code that is not part of this model. The model sets the initial lines and discharges the capacitor.
- `bankIn`, `setGameLine`, `setExromLine`, `pullDownNmiLine` and `releaseNmiLine` are base-class and CPU code. They are modelled by the effect they are called for: a log entry, or a line value. The lines are booleans, and a call such as `setGameLine(value & 0x20)` is taken as "non-zero means high"; this assumes the parameter type of the expansion port's setters, whose declaration (class `ExpansionPort`) is not part of this model.
- The cycle counter is an unbounded natural number, so the wrap-around of the 64-bit `getCycles()` is not modelled.
- `printReadable` writes to stderr. `getSizeOfFile`, `checkFileSize` and `checkFileHeader` use the file system. `usec`, `localTimeSec/Minute/Hour`, `sleepMicrosec` and `sleepUntil` use the clock and the kernel. All of these are I/O.
- Basic.ToUpper: only the C locale is modelled. Locale-dependent upper-casing of bytes $80-$FF is not.
- Basic.ExtractFilename: returned C strings are modelled as `string` values without their NUL, so `strdup`'s allocation is not modelled. The same holds for ExtractSuffix and ExtractFilenameWithoutSuffix.
- Basic.TranslateToUnicode: `strlen` is evaluated once before the loop rather than on each iteration. The byte string does not change during the loop, so the result is the same.
- Basic.SprintDigits: one loop models all six printers, which differ only in base and width. The decimal printers write `'0' + digit`, and for digits below 10 that is the same character.
- Basic.Sprint8b: the value is an unsigned integer, not a bit-vector. Testing `value & 1` becomes `value % 2` and `value >>= 1` becomes `value / 2`, which is the same on unsigned operands. The same holds for Sprint16b.

## Findings

| source | as written | input that shows it | evidently intended | confidence | as-written member | corrected member |
|---|---|---|---|---|---|---|
| C64/CIA.h:417 | `getControlRegA` is declared `bool` and returns CRA, so the register is truncated to `CRA != 0` | CRA = $01 and CRA = $11 both give `true` | return the 8-bit value of CRA, as its comment says | not executed | CiaRegisters.Cia.GetControlRegA, CiaRegisters.GetControlRegALosesValue | CiaRegisters.Cia.ControlRegA |
| C64/CIA.h:505 | `getControlRegB` is declared `bool` and returns CRB, truncating it the same way | CRB = $01 and CRB = $11 both give `true` | return the 8-bit value of CRB | not executed | CiaRegisters.Cia.GetControlRegB, CiaRegisters.GetControlRegBLosesValue | CiaRegisters.Cia.ControlRegB |
