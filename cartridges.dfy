/*
 * Bank-switching logic of the custom C64 cartridge types. Each handler
 * reacts to an access of the I/O 1 ($DE00-$DEFF) or I/O 2 ($DF00-$DFFF)
 * area, or of the ROM area, by selecting ROM chips, driving the GAME and
 * EXROM lines of the expansion port and, for some types, storing a register
 * value or a capacitor deadline.
 *
 * The shared state lives in one Cartridge object: what the cartridge base
 * class keeps (the chips banked in, the register value, the capacitor
 * deadline) and the lines it drives on the expansion port and the CPU. Each
 * cartridge type is a class that works on that object. Reads that the model
 * cannot see (the ROM contents behind Cartridge::peek and
 * Cartridge::peekIO1) are passed in as functions; the C64 cycle counter is
 * passed in as a number.
 */
module CustomCartridges {

  class Cartridge {
    /** GAME line of the expansion port (false = low = active). */
    var game: bool
    /** EXROM line of the expansion port (false = low = active). */
    var exrom: bool
    /** The expansion port pulls the CPU's NMI line low. */
    var nmiLow: bool
    /** Numbers of the chips banked in, in the order of the bankIn calls. */
    var banks: seq<nat>
    /** Last value written to the control register of the cartridge. */
    var regValue: bv8
    /** Cycle at which the Epyx capacitor is charged. */
    var cycle: int
    /** GAME line the cartridge asks for when the machine resets. */
    var initialGame: bool
    /** EXROM line the cartridge asks for when the machine resets. */
    var initialExrom: bool

    method BankIn(nr: nat)
      modifies this`banks
      ensures banks == old(banks) + [nr]
    {
      banks := banks + [nr];
    }

    method SetGameLine(value: bool)
      modifies this`game
      ensures game == value
    {
      game := value;
    }

    method SetExromLine(value: bool)
      modifies this`exrom
      ensures exrom == value
    {
      exrom := value;
    }

    method PullDownNmiLine()
      modifies this`nmiLow
      ensures nmiLow
    {
      nmiLow := true;
    }

    method ReleaseNmiLine()
      modifies this`nmiLow
      ensures !nmiLow
    {
      nmiLow := false;
    }
  }

  /** True if bit mask `m` is set in `v`: the C conversion of `v & m` to bool. */
  predicate Has(v: bv8, m: bv8)
  {
    (v & m) != 0
  }

  // ---------------------------------------------------------------------
  // Final Cartridge III
  // ---------------------------------------------------------------------

  class FinalIII {
    const cart: Cartridge

    constructor(cart: Cartridge)
      ensures this.cart == cart
    {
      this.cart := cart;
    }

    /**
     * Reset shows bank 0 and asks for the 16 KB configuration (both
     * lines low) at the next machine reset.
     */
    method Reset()
      modifies cart`banks, cart`initialGame, cart`initialExrom
      ensures cart.banks == old(cart.banks) + [0]
      ensures !cart.initialGame && !cart.initialExrom
    {
      cart.BankIn(0);
      cart.initialGame := false;
      cart.initialExrom := false;
    }

    /** I/O 1 mirrors offsets $1E00-$1EFF of the bank shown at $8000. */
    function PeekIO1(addr: bv16, romPeek: bv16 -> bv8): (r: bv8)
      ensures 0xDE00 <= addr <= 0xDEFF ==> r == romPeek(0x9E00 | (addr & 0x00FF))
    {
      var offset := addr - 0xDE00;
      romPeek(0x8000 + 0x1E00 + offset)
    }

    /** I/O 2 mirrors offsets $1F00-$1FFF of the bank shown at $8000. */
    function PeekIO2(addr: bv16, romPeek: bv16 -> bv8): (r: bv8)
      ensures 0xDF00 <= addr <= 0xDFFF ==> r == romPeek(0x9F00 | (addr & 0x00FF))
    {
      var offset := addr - 0xDF00;
      romPeek(0x8000 + 0x1F00 + offset)
    }

    /**
     * $DFFF is the control register. Bit 7 (hide) first raises both lines,
     * but bits 5 and 4 are written afterwards, so GAME and EXROM always end
     * up as bits 5 and 4. Bit 6 clear pulls the NMI line low. Bits 0-1
     * select the bank, banked in at $8000 and (as chip bank + 4) at $E000.
     */
    method PokeIO2(addr: bv16, value: bv8)
      modifies cart`game, cart`exrom, cart`nmiLow, cart`banks
      ensures addr == 0xDFFF ==>
        && cart.game == Has(value, 0x20)
        && cart.exrom == Has(value, 0x10)
        && cart.nmiLow == !Has(value, 0x40)
        && cart.banks == old(cart.banks) + [(value & 0x03) as nat, (value & 0x03) as nat + 4]
      ensures addr != 0xDFFF ==>
        && cart.game == old(cart.game) && cart.exrom == old(cart.exrom)
        && cart.nmiLow == old(cart.nmiLow) && cart.banks == old(cart.banks)
    {
      if addr == 0xDFFF {
        var hidden := value & 0x80;
        var nmi := value & 0x40;
        var game := value & 0x20;
        var exrom := value & 0x10;
        var bank := value & 0x03;
        if hidden != 0 {
          cart.SetGameLine(true);
          cart.SetExromLine(true);
        }
        if nmi != 0 { cart.ReleaseNmiLine(); } else { cart.PullDownNmiLine(); }
        cart.SetGameLine(game != 0);
        cart.SetExromLine(exrom != 0);
        cart.BankIn(bank as nat);
        cart.BankIn(bank as nat + 4);
      }
    }

    /** The freezer button: bank 0 in ultimax mode (GAME low, EXROM high) with an NMI. */
    method PressFirstButton()
      modifies cart`game, cart`exrom, cart`nmiLow, cart`banks
      ensures !cart.game && cart.exrom && cart.nmiLow
      ensures cart.banks == old(cart.banks) + [0, 4]
    {
      PokeIO2(0xDFFF, 0x10);
    }
  }

  // ---------------------------------------------------------------------
  // Simons' BASIC
  // ---------------------------------------------------------------------

  class SimonsBasic {
    const cart: Cartridge

    constructor(cart: Cartridge)
      ensures this.cart == cart
    {
      this.cart := cart;
    }

    method Reset()
      modifies cart`banks
      ensures cart.banks == old(cart.banks) + [0, 1]
    {
      cart.BankIn(0);
      cart.BankIn(1);
    }

    /** Reading I/O 1 passes through to the base cartridge without side effect. */
    function ReadIO1(addr: bv16, baseIO1: bv16 -> bv8): (r: bv8)
      ensures r == baseIO1(addr)
    {
      baseIO1(addr)
    }

    /** A CPU read of $DE00 switches to the 8 KB configuration (GAME high). */
    method PeekIO1(addr: bv16, baseIO1: bv16 -> bv8) returns (r: bv8)
      modifies cart`game
      ensures r == ReadIO1(addr, baseIO1)
      ensures cart.game == (addr == 0xDE00 || old(cart.game))
    {
      if addr == 0xDE00 {
        cart.SetGameLine(true);
      }
      r := baseIO1(addr);
    }

    /** A write to $DE00 switches to the 16 KB configuration (GAME low). */
    method PokeIO1(addr: bv16, value: bv8)
      modifies cart`game
      ensures cart.game == (addr != 0xDE00 && old(cart.game))
    {
      if addr == 0xDE00 {
        cart.SetGameLine(false);
      }
    }
  }

  // ---------------------------------------------------------------------
  // Ocean type 1
  // ---------------------------------------------------------------------

  class Ocean {
    const cart: Cartridge

    constructor(cart: Cartridge)
      ensures this.cart == cart
    {
      this.cart := cart;
    }

    /** A write to $DE00 banks in the low six bits of the value, one of 64 banks. */
    method PokeIO1(addr: bv16, value: bv8)
      modifies cart`banks
      ensures addr == 0xDE00 ==> cart.banks == old(cart.banks) + [(value & 0x3F) as nat]
      ensures addr == 0xDE00 ==> cart.banks[|cart.banks| - 1] < 64
      ensures addr != 0xDE00 ==> cart.banks == old(cart.banks)
    {
      if addr == 0xDE00 {
        cart.BankIn((value & 0x3F) as nat);
      }
    }
  }

  // ---------------------------------------------------------------------
  // Funplay
  // ---------------------------------------------------------------------

  /**
   * Funplay bank number: value bits 3-5 become bank bits 0-2 and value
   * bit 0 becomes bank bit 3; the bank is one of 16.
   */
  function FunplayBank(value: bv8): (bank: bv8)
    ensures bank < 16
    ensures Has(bank, 0x01) == Has(value, 0x08) && Has(bank, 0x02) == Has(value, 0x10)
    ensures Has(bank, 0x04) == Has(value, 0x20) && Has(bank, 0x08) == Has(value, 0x01)
  {
    ((value >> 3) & 0x07) | ((value << 3) & 0x08)
  }

  /** A value written to $DE00 that selects `bank`; the inverse of FunplayBank. */
  function FunplayValue(bank: bv8): (value: bv8)
    requires bank < 16
    ensures value != 0x86
  {
    ((bank & 0x07) << 3) | ((bank >> 3) & 0x01)
  }

  /** Every one of the 16 banks can be selected, by a value other than the disable code. */
  lemma FunplayReachesEveryBank(bank: bv8)
    requires bank < 16
    ensures FunplayValue(bank) != 0x86 && FunplayBank(FunplayValue(bank)) == bank
  {
  }

  class Funplay {
    const cart: Cartridge

    constructor(cart: Cartridge)
      ensures this.cart == cart
    {
      this.cart := cart;
    }

    /** $86 at $DE00 disables the cartridge; any other value at $DE00 selects a bank. */
    method PokeIO1(addr: bv16, value: bv8)
      modifies cart`game, cart`exrom, cart`banks
      ensures addr == 0xDE00 && value == 0x86 ==>
        cart.game && cart.exrom && cart.banks == old(cart.banks)
      ensures addr == 0xDE00 && value != 0x86 ==>
        && cart.game == old(cart.game) && cart.exrom == old(cart.exrom)
        && cart.banks == old(cart.banks) + [FunplayBank(value) as nat]
      ensures addr != 0xDE00 ==>
        cart.game == old(cart.game) && cart.exrom == old(cart.exrom) && cart.banks == old(cart.banks)
    {
      if addr == 0xDE00 {
        if value == 0x86 {
          cart.SetGameLine(true);
          cart.SetExromLine(true);
          return;
        }
        var bank := FunplayBank(value);
        cart.BankIn(bank as nat);
      }
    }
  }

  // ---------------------------------------------------------------------
  // Super Games
  // ---------------------------------------------------------------------

  class Supergames {
    const cart: Cartridge

    constructor(cart: Cartridge)
      ensures this.cart == cart
    {
      this.cart := cart;
    }

    /**
     * A write to $DF00: bits 0-1 select the bank; bit 2 set gives the
     * 8 KB configuration (EXROM low, GAME high), clear the 16 KB one
     * (both low). Bit 3 (write protection) is ignored.
     */
    method PokeIO2(addr: bv16, value: bv8)
      modifies cart`game, cart`exrom, cart`banks
      ensures addr == 0xDF00 ==>
        && !cart.exrom && cart.game == Has(value, 0x04)
        && cart.banks == old(cart.banks) + [(value & 0x03) as nat]
      ensures addr != 0xDF00 ==>
        cart.game == old(cart.game) && cart.exrom == old(cart.exrom) && cart.banks == old(cart.banks)
    {
      if addr == 0xDF00 {
        var bank := value & 0x03;
        var ctrl := value & 0x04;
        if ctrl != 0 {
          cart.SetExromLine(false);
          cart.SetGameLine(true);
        } else {
          cart.SetExromLine(false);
          cart.SetGameLine(false);
        }
        cart.BankIn(bank as nat);
      }
    }
  }

  // ---------------------------------------------------------------------
  // Epyx Fast Load
  // ---------------------------------------------------------------------

  /** Cycles the Epyx capacitor needs to charge. */
  const EpyxChargeCycles := 512

  class EpyxFastLoad {
    const cart: Cartridge

    constructor(cart: Cartridge)
      ensures this.cart == cart
    {
      this.cart := cart;
    }

    /** Discharging keeps the ROM visible (8 KB configuration) for 512 more cycles. */
    method DischargeCapacitor(now: nat)
      modifies cart`cycle, cart`exrom, cart`game
      ensures cart.cycle == now + EpyxChargeCycles
      ensures !cart.exrom && cart.game
    {
      cart.cycle := now + EpyxChargeCycles;
      cart.SetExromLine(false);
      cart.SetGameLine(true);
    }

    /**
     * Until the deadline has passed the cartridge stays active and nothing
     * changes; afterwards both lines go high (cartridge off) and the result
     * is false.
     */
    method CheckCapacitor(now: nat) returns (active: bool)
      modifies cart`exrom, cart`game
      ensures active <==> now <= cart.cycle
      ensures active ==> cart.exrom == old(cart.exrom) && cart.game == old(cart.game)
      ensures !active ==> cart.exrom && cart.game
    {
      if now > cart.cycle {
        cart.SetExromLine(true);
        cart.SetGameLine(true);
        return false;
      }
      return true;
    }

    /**
     * Reset asks for the 8 KB configuration (GAME high, EXROM low) so that
     * the ROM shows up, and discharges the capacitor.
     */
    method Reset(now: nat)
      modifies cart`initialGame, cart`initialExrom, cart`cycle, cart`exrom, cart`game
      ensures cart.initialGame && !cart.initialExrom
      ensures cart.cycle == now + EpyxChargeCycles && !cart.exrom && cart.game
    {
      cart.initialGame := true;
      cart.initialExrom := false;
      DischargeCapacitor(now);
    }

    /** Run once per cycle: switches the cartridge off once the capacitor is charged. */
    method Execute(now: nat)
      modifies cart`exrom, cart`game
      ensures now <= cart.cycle ==> cart.exrom == old(cart.exrom) && cart.game == old(cart.game)
      ensures now > cart.cycle ==> cart.exrom && cart.game
    {
      var _ := CheckCapacitor(now);
    }

    /** A read of ROM that does not discharge the capacitor. */
    function Read(addr: bv16, romPeek: bv16 -> bv8): (r: bv8)
      ensures r == romPeek(addr)
    {
      romPeek(addr)
    }

    /** A CPU read of ROM discharges the capacitor and returns what Read returns. */
    method Peek(addr: bv16, now: nat, romPeek: bv16 -> bv8) returns (r: bv8)
      modifies cart`cycle, cart`exrom, cart`game
      ensures r == Read(addr, romPeek)
      ensures cart.cycle == now + EpyxChargeCycles && !cart.exrom && cart.game
    {
      DischargeCapacitor(now);
      r := romPeek(addr);
    }

    /** A read of I/O 1 without side effect returns 0. */
    function ReadIO1(addr: bv16): (r: bv8)
      ensures r == 0
    {
      0
    }

    /** A CPU read of I/O 1 discharges the capacitor and returns what ReadIO1 returns. */
    method PeekIO1(addr: bv16, now: nat) returns (r: bv8)
      modifies cart`cycle, cart`exrom, cart`game
      ensures r == ReadIO1(addr)
      ensures cart.cycle == now + EpyxChargeCycles && !cart.exrom && cart.game
    {
      DischargeCapacitor(now);
      return 0;
    }

    /**
     * I/O 2 mirrors the last 256 bytes of the 8 KB ROM chip 0: $DFxx reads
     * offset $1Fxx, and every address reads one of those 256 bytes.
     */
    function PeekIO2(addr: bv16, chip0: seq<bv8>): (r: bv8)
      requires |chip0| >= 0x2000
      ensures 0xDF00 <= addr <= 0xDFFF ==> r == chip0[0x1F00 + (addr - 0xDF00) as int]
      ensures r in chip0[0x1F00..0x2000]
    {
      chip0[0x1F00 + ((addr & 0xFF) as bv8) as int]
    }
  }

  // ---------------------------------------------------------------------
  // Westermann Learning
  // ---------------------------------------------------------------------

  class Westermann {
    const cart: Cartridge

    constructor(cart: Cartridge)
      ensures this.cart == cart
    {
      this.cart := cart;
    }

    /** A read of I/O 2 without side effect returns 0. */
    function ReadIO2(addr: bv16): (r: bv8)
      ensures r == 0
    {
      0
    }

    /** Any CPU read of I/O 2 switches to the 8 KB configuration (GAME high). */
    method PeekIO2(addr: bv16) returns (r: bv8)
      modifies cart`game
      ensures r == ReadIO2(addr)
      ensures cart.game == ((0xDF00 <= addr <= 0xDFFF) || old(cart.game))
    {
      if addr >= 0xDF00 && addr <= 0xDFFF {
        cart.SetGameLine(true);
      }
      return 0;
    }
  }

  // ---------------------------------------------------------------------
  // REX Utility
  // ---------------------------------------------------------------------

  class Rex {
    const cart: Cartridge

    constructor(cart: Cartridge)
      ensures this.cart == cart
    {
      this.cart := cart;
    }

    /** A read of I/O 2 without side effect returns 0. */
    function ReadIO2(addr: bv16): (r: bv8)
      ensures r == 0
    {
      0
    }

    /**
     * A CPU read of $DF00-$DFBF disables the ROM (both lines high); a read
     * of $DFC0-$DFFF switches to the 8 KB configuration.
     */
    method PeekIO2(addr: bv16) returns (r: bv8)
      modifies cart`exrom, cart`game
      ensures r == ReadIO2(addr)
      ensures 0xDF00 <= addr <= 0xDFBF ==> cart.exrom && cart.game
      ensures 0xDFC0 <= addr <= 0xDFFF ==> !cart.exrom && cart.game
      ensures !(0xDF00 <= addr <= 0xDFFF) ==> cart.exrom == old(cart.exrom) && cart.game == old(cart.game)
    {
      if addr >= 0xDF00 && addr <= 0xDFBF {
        cart.SetExromLine(true);
        cart.SetGameLine(true);
      }
      if addr >= 0xDFC0 && addr <= 0xDFFF {
        cart.SetExromLine(false);
        cart.SetGameLine(true);
      }
      return 0;
    }
  }

  // ---------------------------------------------------------------------
  // (Super) Zaxxon
  // ---------------------------------------------------------------------

  class Zaxxon {
    const cart: Cartridge

    constructor(cart: Cartridge)
      ensures this.cart == cart
    {
      this.cart := cart;
    }

    /** A read of ROM that never switches banks. */
    function Read(addr: bv16, romPeek: bv16 -> bv8): (r: bv8)
      ensures r == romPeek(addr)
    {
      romPeek(addr)
    }

    /**
     * A CPU read of $8000-$8FFF banks in chip 1, one of $9000-$9FFF banks in
     * chip 2 and reads the 4 KB ROM through its mirror 4 KB lower; anything
     * else reads through.
     */
    method Peek(addr: bv16, romPeek: bv16 -> bv8) returns (r: bv8)
      modifies cart`banks
      ensures 0x8000 <= addr <= 0x8FFF ==> cart.banks == old(cart.banks) + [1] && r == Read(addr, romPeek)
      ensures 0x9000 <= addr <= 0x9FFF ==> cart.banks == old(cart.banks) + [2] && r == Read(addr - 0x1000, romPeek)
      ensures !(0x8000 <= addr <= 0x9FFF) ==> cart.banks == old(cart.banks) && r == Read(addr, romPeek)
    {
      if addr >= 0x8000 && addr <= 0x8FFF {
        cart.BankIn(1);
        return romPeek(addr);
      }
      if addr >= 0x9000 && addr <= 0x9FFF {
        cart.BankIn(2);
        return romPeek(addr - 0x1000);
      }
      return romPeek(addr);
    }
  }

  // ---------------------------------------------------------------------
  // Magic Desk
  // ---------------------------------------------------------------------

  class MagicDesk {
    const cart: Cartridge

    constructor(cart: Cartridge)
      ensures this.cart == cart
    {
      this.cart := cart;
    }

    /** Every address of I/O 1 reads back the stored register. */
    function PeekIO1(addr: bv16): (r: bv8)
      reads cart
      ensures r == cart.regValue
    {
      cart.regValue
    }

    /**
     * Any write to I/O 1 stores bits 7 and 0-3 of the value, which every
     * later PeekIO1 returns. At $DE00 bit 7 also drives EXROM (set = RAM
     * instead of ROM) and bits 0-3 select one of 16 banks.
     */
    method PokeIO1(addr: bv16, value: bv8)
      modifies cart`regValue, cart`exrom, cart`banks
      ensures cart.regValue == value & 0x8F
      ensures forall a: bv16 {:trigger PeekIO1(a)} :: PeekIO1(a) == value & 0x8F
      ensures addr == 0xDE00 ==>
        cart.exrom == Has(value, 0x80) && cart.banks == old(cart.banks) + [(value & 0x0F) as nat]
      ensures addr != 0xDE00 ==> cart.exrom == old(cart.exrom) && cart.banks == old(cart.banks)
    {
      cart.regValue := value & 0x8F;
      if addr == 0xDE00 {
        cart.SetExromLine((value & 0x80) != 0);
        cart.BankIn((value & 0x0F) as nat);
      }
    }
  }

  // ---------------------------------------------------------------------
  // COMAL 80
  // ---------------------------------------------------------------------

  class Comal80 {
    const cart: Cartridge

    constructor(cart: Cartridge)
      ensures this.cart == cart
    {
      this.cart := cart;
    }

    /** Reset selects the 16 KB configuration with bank 0. */
    method Reset()
      modifies cart`exrom, cart`game, cart`banks
      ensures !cart.exrom && !cart.game
      ensures cart.banks == old(cart.banks) + [0]
    {
      cart.SetExromLine(false);
      cart.SetGameLine(false);
      cart.BankIn(0);
    }

    /** Every address of I/O 1 reads back the stored register. */
    function PeekIO1(addr: bv16): (r: bv8)
      reads cart
      ensures r == cart.regValue
    {
      cart.regValue
    }

    /** I/O 2 reads as 0. */
    function PeekIO2(addr: bv16): (r: bv8)
      ensures r == 0
    {
      0
    }

    /**
     * A write anywhere in $DE00-$DEFF stores bits 7-6 and 2-0 of the value
     * and banks in bits 0-1. Bits 7-5: %111 disables the cartridge, %010
     * gives the 8 KB configuration, anything else the 16 KB one.
     */
    method PokeIO1(addr: bv16, value: bv8)
      modifies cart`regValue, cart`exrom, cart`game, cart`banks
      ensures 0xDE00 <= addr <= 0xDEFF ==>
        && cart.regValue == value & 0xC7
        && (forall a: bv16 {:trigger PeekIO1(a)} :: PeekIO1(a) == value & 0xC7)
        && cart.banks == old(cart.banks) + [(value & 0x03) as nat]
        && ((value & 0xE0) == 0xE0 ==> cart.exrom && cart.game)
        && ((value & 0xE0) == 0x40 ==> !cart.exrom && cart.game)
        && ((value & 0xE0) != 0xE0 && (value & 0xE0) != 0x40 ==> !cart.exrom && !cart.game)
      ensures !(0xDE00 <= addr <= 0xDEFF) ==>
        && cart.regValue == old(cart.regValue) && cart.exrom == old(cart.exrom)
        && cart.game == old(cart.game) && cart.banks == old(cart.banks)
    {
      if addr >= 0xDE00 && addr <= 0xDEFF {
        cart.regValue := value & 0xC7;
        cart.BankIn((value & 0x03) as nat);
        match value & 0xE0 {
          case 0xE0 =>
            cart.SetExromLine(true);
            cart.SetGameLine(true);
          case 0x40 =>
            cart.SetExromLine(false);
            cart.SetGameLine(true);
          case _ =>
            cart.SetExromLine(false);
            cart.SetGameLine(false);
        }
      }
    }
  }
}
