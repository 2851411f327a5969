/** Register addresses, masks, reset values and limits of the LDC1612/LDC1614,
    and the machine integers of the driver. Register words are 16-bit vectors;
    register addresses are plain integers. */
module CommandTable {

  type uint8 = x: int | 0 <= x < 0x100
  type uint16 = x: int | 0 <= x < 0x1_0000
  type uint32 = x: int | 0 <= x < 0x1_0000_0000
  type uint64 = x: int | 0 <= x < 0x1_0000_0000_0000_0000

  const UINT32_MAX := 0xFFFF_FFFF
  const TWO_TO_THE_63 := 0x8000_0000_0000_0000
  const TWO_TO_THE_64 := 0x1_0000_0000_0000_0000

  // ----- register addresses -------------------------------------------------

  const REG_DATA0_MSB := 0x00
  const REG_DATA0_LSB := 0x01
  const REG_RCOUNT0 := 0x08
  const REG_OFFSET0 := 0x0C
  const REG_SETTLECOUNT0 := 0x10
  const REG_CLOCK_DIVIDERS0 := 0x14
  const REG_STATUS := 0x18
  const REG_ERROR_CONFIG := 0x19
  const REG_CONFIG := 0x1A
  const REG_MUX_CONFIG := 0x1B
  const REG_RESET_DEV := 0x1C
  const REG_DRIVE_CURRENT0 := 0x1E
  const REG_MANUFACTURER_ID := 0x7E
  const REG_DEVICE_ID := 0x7F
  const INVALID_REGISTER := 0xFF
  const REGISTER_COUNT := 128

  function RegDataMsb(ch: int): int { REG_DATA0_MSB + ch * 2 }
  function RegDataLsb(ch: int): int { REG_DATA0_LSB + ch * 2 }
  function RegRcount(ch: int): int { REG_RCOUNT0 + ch }
  function RegOffset(ch: int): int { REG_OFFSET0 + ch }
  function RegSettleCount(ch: int): int { REG_SETTLECOUNT0 + ch }
  function RegClockDividers(ch: int): int { REG_CLOCK_DIVIDERS0 + ch }
  function RegDriveCurrent(ch: int): int { REG_DRIVE_CURRENT0 + ch }

  // ----- reset and identity values ------------------------------------------

  const RCOUNT_DEFAULT: bv16 := 0x0080
  const ERROR_CONFIG_DEFAULT: bv16 := 0x0000
  const CONFIG_DEFAULT: bv16 := 0x2801
  const MUX_CONFIG_DEFAULT: bv16 := 0x020F
  const MANUFACTURER_ID_VALUE: bv16 := 0x5449
  const DEVICE_ID_VALUE: bv16 := 0x3055

  // ----- DATAx_MSB ----------------------------------------------------------

  const MASK_DATA_ERR_UR: bv16 := 0x8000
  const MASK_DATA_ERR_OR: bv16 := 0x4000
  const MASK_DATA_ERR_WD: bv16 := 0x2000
  const MASK_DATA_ERR_AE: bv16 := 0x1000
  const MASK_DATA_MSB_DATA: bv16 := 0x0FFF
  const DATA_ERROR_MASK: bv16 := 0xF000

  // ----- STATUS -------------------------------------------------------------

  const MASK_STATUS_ERR_CHAN: bv16 := 0xC000
  const MASK_STATUS_ERR_UR: bv16 := 0x2000
  const MASK_STATUS_ERR_OR: bv16 := 0x1000
  const MASK_STATUS_ERR_WD: bv16 := 0x0800
  const MASK_STATUS_ERR_AHE: bv16 := 0x0400
  const MASK_STATUS_ERR_ALE: bv16 := 0x0200
  const MASK_STATUS_ERR_ZC: bv16 := 0x0100
  const MASK_STATUS_DRDY: bv16 := 0x0040
  const MASK_STATUS_UNREADCONV0: bv16 := 0x0008
  const MASK_STATUS_UNREADCONV1: bv16 := 0x0004
  const MASK_STATUS_UNREADCONV2: bv16 := 0x0002
  const MASK_STATUS_UNREADCONV3: bv16 := 0x0001
  const STATUS_ERROR_MASK: bv16 := 0x3F00

  // ----- ERROR_CONFIG -------------------------------------------------------

  const MASK_ERRCFG_UR_ERR2OUT: bv16 := 0x8000
  const MASK_ERRCFG_OR_ERR2OUT: bv16 := 0x4000
  const MASK_ERRCFG_WD_ERR2OUT: bv16 := 0x2000
  const MASK_ERRCFG_AH_ERR2OUT: bv16 := 0x1000
  const MASK_ERRCFG_AL_ERR2OUT: bv16 := 0x0800
  const MASK_ERRCFG_UR_ERR2INT: bv16 := 0x0080
  const MASK_ERRCFG_OR_ERR2INT: bv16 := 0x0040
  const MASK_ERRCFG_WD_ERR2INT: bv16 := 0x0020
  const MASK_ERRCFG_AH_ERR2INT: bv16 := 0x0010
  const MASK_ERRCFG_AL_ERR2INT: bv16 := 0x0008
  const MASK_ERRCFG_ZC_ERR2INT: bv16 := 0x0004
  const MASK_ERRCFG_DRDY_2INT: bv16 := 0x0001
  const MASK_ERRCFG_ALLOWED: bv16 := 0xF8FD

  // ----- CONFIG -------------------------------------------------------------

  const MASK_CFG_SLEEP_MODE_EN: bv16 := 0x2000
  const MASK_CFG_RP_OVERRIDE_EN: bv16 := 0x1000
  const MASK_CFG_SENSOR_ACTIVATE_SEL: bv16 := 0x0800
  const MASK_CFG_AUTO_AMP_DIS: bv16 := 0x0400
  const MASK_CFG_REF_CLK_SRC: bv16 := 0x0200
  const MASK_CFG_INTB_DIS: bv16 := 0x0080
  const MASK_CFG_HIGH_CURRENT_DRV: bv16 := 0x0040
  const CONFIG_RESERVED_VALUE: bv16 := 0x0001

  // ----- MUX_CONFIG ---------------------------------------------------------

  const MASK_MUX_AUTOSCAN_EN: bv16 := 0x8000
  const MASK_MUX_RR_SEQUENCE: bv16 := 0x6000
  const MASK_MUX_RESERVED: bv16 := 0x1FF8
  const MUX_CONFIG_RESERVED_VALUE: bv16 := 0x0208

  // ----- RESET_DEV, CLOCK_DIVIDERSx, DRIVE_CURRENTx -------------------------

  const MASK_RESET_DEV: bv16 := 0x8000
  const MASK_FREF_DIVIDER: bv16 := 0x03FF
  const MASK_INIT_IDRIVE: bv16 := 0x07C0

  // ----- limits -------------------------------------------------------------

  const RCOUNT_MIN: bv16 := 0x0005
  const CONVERSION_RCOUNT_MIN: bv16 := 0x0009
  const CONVERSION_SETTLE_MIN: bv16 := 0x0004
  const FIN_DIVIDER_MIN: bv8 := 1
  const FIN_DIVIDER_MAX: bv8 := 15
  const FREF_DIVIDER_MIN: bv16 := 1
  const FREF_DIVIDER_MAX: bv16 := 0x03FF
  const IDRIVE_MAX: bv8 := 31
  const MAX_CHANNELS := 4
}
