/**
 * The board tables of Hobot.GPIO (gpio_pin_data.py): one row per header pin
 * of each supported board, and the two lists that map a board id to its
 * table.  The rows are transcribed value for value.
 */
module PinTables {
  import opened Wrappers

  /**
   * One pin of a board table, column by column:
   *   [0] gpioChipDir  the GPIO chip's directory below /sys/devices/platform/
   *   [1] linuxGpio    the Linux GPIO number exported through sysfs
   *   [2] board        the header pin number (BOARD mode)
   *   [3] bcm          the Broadcom-style number (BCM mode)
   *   [4] cvm          the pin name in CVM mode
   *   [5] soc          the pin name in SOC mode
   *   [6] pwmChipDir   the PWM chip's directory below /sys/devices/platform/, if any
   *   [7] pwmId        the PWM channel on that chip, if any
   */
  datatype PinRow = PinRow(
    gpioChipDir: Option<string>,
    linuxGpio: int,
    board: int,
    bcm: int,
    cvm: string,
    soc: string,
    pwmChipDir: Option<string>,
    pwmId: Option<int>)

  /** One entry of a board list: the model name, its pin table and the board id it answers to. */
  datatype BoardData = BoardData(boardName: string, pinInfo: seq<PinRow>, boardId: int)

  /** `SDBV3_PIN`. */
  const Sdbv3Pin: seq<PinRow> := [
    PinRow(Some("soc/a6003000.gpio"), 11, 3, 2, "I2C1_SDA", "I2C1_SDA", None, None),
    PinRow(Some("soc/a6003000.gpio"), 10, 5, 3, "I2C1_SCL", "I2C1_SCL", None, None),
    PinRow(Some("soc/a6003000.gpio"), 38, 7, 4, "GPIO38", "GPIO38", None, None),
    PinRow(Some("soc/a6003000.gpio"), 6, 11, 17, "GPIO6", "JTG_TDI", None, None),
    PinRow(Some("soc/a6003000.gpio"), 5, 13, 27, "GPIO5", "JTG_TMS", None, None),
    PinRow(Some("soc/a6003000.gpio"), 30, 15, 22, "GPIO30", "BIFSPI_MISO", None, None),
    PinRow(Some("soc/a6003000.gpio"), 18, 19, 10, "SPI0_MOSI", "SPI0_MOSI", Some("soc/a500e000.pwm"), Some(2)),
    PinRow(Some("soc/a6003000.gpio"), 19, 21, 9, "SPI0_MISO", "SPI0_MISO", Some("soc/a500f000.pwm"), Some(0)),
    PinRow(Some("soc/a6003000.gpio"), 17, 23, 11, "SPI0_SCLK", "SPI0_SCLK", None, None),
    PinRow(Some("soc/a6003000.gpio"), 14, 29, 5, "GPIO14", "SPI2_SCLK", None, None),
    PinRow(Some("soc/a6003000.gpio"), 31, 31, 6, "GPIO31", "BIFSPI_RSTN", None, None),
    PinRow(Some("soc/a6003000.gpio"), 13, 33, 13, "PWM8", "SPI2_MISO", Some("soc/a500f000.pwm"), Some(2)),
    PinRow(Some("soc/a6003000.gpio"), 103, 35, 19, "I2S0_LRCK", "I2S0_LRCK", None, None),
    PinRow(Some("soc/a6003000.gpio"), 29, 37, 26, "GPIO29", "BIFSPI_MOSI", None, None),
    PinRow(Some("soc/a6003000.gpio"), 95, 8, 14, "UART0_TXD", "UART0_TXD", None, None),
    PinRow(Some("soc/a6003000.gpio"), 96, 10, 15, "UART0_RXD", "UART0_RXD", None, None),
    PinRow(Some("soc/a6003000.gpio"), 102, 12, 18, "I2S0_BCLK", "I2S0_BCLK", None, None),
    PinRow(Some("soc/a6003000.gpio"), 27, 16, 23, "GPIO27", "BIFSPI_CSN", None, None),
    PinRow(Some("soc/a6003000.gpio"), 7, 18, 24, "GPIO7", "JTG_TDO", None, None),
    PinRow(Some("soc/a6003000.gpio"), 15, 22, 25, "GPIO15", "SPI2_CSN", None, None),
    PinRow(Some("soc/a6003000.gpio"), 16, 24, 8, "SPI0_CSN", "I2C4_SDA", None, None),
    PinRow(Some("soc/a6003000.gpio"), 120, 26, 7, "SPI0_CSN1", "QSPI_CSN1", None, None),
    PinRow(Some("soc/a6003000.gpio"), 12, 32, 12, "PWM7", "SPI2_MOSI", Some("soc/a500f000.pwm"), Some(1)),
    PinRow(Some("soc/a6003000.gpio"), 28, 36, 16, "GPIO28", "BIFSPI_SCLK", None, None),
    PinRow(Some("soc/a6003000.gpio"), 104, 38, 20, "I2S0_SDIO", "I2S0_SDIO", None, None),
    PinRow(Some("soc/a6003000.gpio"), 108, 40, 21, "I2S1_SDIO", "I2S1_SDIO", None, None)
  ]

  /** `SDB_PIN`. */
  const SdbPin: seq<PinRow> := [
    PinRow(Some("soc/a6003000.gpio"), 11, 3, 2, "I2C1_SDA", "I2C1_SDA", None, None),
    PinRow(Some("soc/a6003000.gpio"), 10, 5, 3, "I2C1_SCL", "I2C1_SCL", None, None),
    PinRow(Some("soc/a6003000.gpio"), 101, 7, 4, "I2S0_MCLK", "I2S0_MCLK", None, None),
    PinRow(Some("soc/a6003000.gpio"), 6, 11, 17, "GPIO6", "JTG_TDI", None, None),
    PinRow(Some("soc/a6003000.gpio"), 5, 13, 27, "GPIO5", "JTG_TMS", None, None),
    PinRow(Some("soc/a6003000.gpio"), 30, 15, 22, "GPIO30", "BIFSPI_MISO", None, None),
    PinRow(Some("soc/a6003000.gpio"), 18, 19, 10, "SPI0_MOSI", "SPI0_MOSI", Some("soc/a500e000.pwm"), Some(2)),
    PinRow(Some("soc/a6003000.gpio"), 19, 21, 9, "SPI0_MISO", "SPI0_MISO", Some("soc/a500f000.pwm"), Some(0)),
    PinRow(Some("soc/a6003000.gpio"), 17, 23, 11, "SPI0_SCLK", "SPI0_SCLK", None, None),
    PinRow(Some("soc/a6003000.gpio"), 106, 27, 0, "I2S1_BLCK", "I2S1_BLCK", None, None),
    PinRow(Some("soc/a6003000.gpio"), 14, 29, 5, "GPIO14", "SPI2_SCLK", None, None),
    PinRow(Some("soc/a6003000.gpio"), 31, 31, 6, "GPIO31", "BIFSPI_RSTN", None, None),
    PinRow(Some("soc/a6003000.gpio"), 4, 33, 13, "PWM0", "PWM0", Some("soc/a500d000.pwm"), Some(0)),
    PinRow(Some("soc/a6003000.gpio"), 103, 35, 19, "I2S0_LRCK", "I2S0_LRCK", None, None),
    PinRow(Some("soc/a6003000.gpio"), 105, 37, 26, "GPIO105", "I2S1_MCLK", None, None),
    PinRow(Some("soc/a6003000.gpio"), 111, 8, 14, "UART3_TXD", "UART3_TXD", None, None),
    PinRow(Some("soc/a6003000.gpio"), 112, 10, 15, "UART3_RXD", "UART3_RXD", None, None),
    PinRow(Some("soc/a6003000.gpio"), 102, 12, 18, "I2S0_BCLK", "I2S0_BCLK", None, None),
    PinRow(Some("soc/a6003000.gpio"), 27, 16, 23, "GPIO27", "BIFSPI_CSN", None, None),
    PinRow(Some("soc/a6003000.gpio"), 7, 18, 24, "GPIO7", "JTG_TDO", None, None),
    PinRow(Some("soc/a6003000.gpio"), 15, 22, 25, "GPIO15", "SPI2_CSN", None, None),
    PinRow(Some("soc/a6003000.gpio"), 16, 24, 8, "SPI0_CSN", "I2C4_SDA", None, None),
    PinRow(Some("soc/a6003000.gpio"), 120, 26, 7, "SPI0_CSN1", "QSPI_CSN1", None, None),
    PinRow(Some("soc/a6003000.gpio"), 107, 28, 1, "I2S1_LRCK", "I2S1_LRCK", None, None),
    PinRow(Some("soc/a6003000.gpio"), 25, 32, 12, "PWM4", "PWM4", Some("soc/a500e000.pwm"), Some(1)),
    PinRow(Some("soc/a6003000.gpio"), 3, 36, 16, "GPIO3", "JTG_TCK", None, None),
    PinRow(Some("soc/a6003000.gpio"), 104, 38, 20, "I2S0_SDIO", "I2S0_SDIO", None, None),
    PinRow(Some("soc/a6003000.gpio"), 108, 40, 21, "I2S1_SDIO", "I2S1_SDIO", None, None)
  ]

  /** `X3_PI_PIN`. */
  const X3PiPin: seq<PinRow> := [
    PinRow(Some("soc/a6003000.gpio"), 9, 3, 2, "I2C0_SDA", "I2C0_SDA", None, None),
    PinRow(Some("soc/a6003000.gpio"), 8, 5, 3, "I2C0_SCL", "I2C0_SCL", None, None),
    PinRow(Some("soc/a6003000.gpio"), 101, 7, 4, "I2S0_MCLK", "I2S0_MCLK", None, None),
    PinRow(Some("soc/a6003000.gpio"), 6, 11, 17, "GPIO6", "JTG_TDI", None, None),
    PinRow(Some("soc/a6003000.gpio"), 5, 13, 27, "GPIO5", "JTG_TMS", None, None),
    PinRow(Some("soc/a6003000.gpio"), 30, 15, 22, "GPIO30", "BIFSPI_MISO", None, None),
    PinRow(Some("soc/a6003000.gpio"), 12, 19, 10, "SPI2_MOSI", "SPI2_MOSI", Some("soc/a500f000.pwm"), Some(1)),
    PinRow(Some("soc/a6003000.gpio"), 13, 21, 9, "SPI2_MISO", "SPI2_MISO", Some("soc/a500f000.pwm"), Some(2)),
    PinRow(Some("soc/a6003000.gpio"), 14, 23, 11, "SPI2_SCLK", "SPI2_SCLK", None, None),
    PinRow(Some("soc/a6003000.gpio"), 106, 27, 0, "I2S1_BCLK", "I2S1_BCLK", None, None),
    PinRow(Some("soc/a6003000.gpio"), 119, 29, 5, "GPIO119", "GPIO119", None, None),
    PinRow(Some("soc/a6003000.gpio"), 118, 31, 6, "GPIO118", "GPIO118", None, None),
    PinRow(Some("soc/a6003000.gpio"), 4, 33, 13, "PWM0", "JTG_TRSTN", Some("soc/a500d000.pwm"), Some(0)),
    PinRow(Some("soc/a6003000.gpio"), 103, 35, 19, "I2S0_LRCK", "I2S0_LRCK", None, None),
    PinRow(Some("soc/a6003000.gpio"), 105, 37, 26, "GPIO105", "I2S1_MCLK", None, None),
    PinRow(Some("soc/a6003000.gpio"), 111, 8, 14, "UART_TXD", "SENSOR2_MCLK", None, None),
    PinRow(Some("soc/a6003000.gpio"), 112, 10, 15, "UART_RXD", "SENSOR3_MCLK", None, None),
    PinRow(Some("soc/a6003000.gpio"), 102, 12, 18, "I2S0_BCLK", "I2S0_BCLK", None, None),
    PinRow(Some("soc/a6003000.gpio"), 27, 16, 23, "GPIO27", "BIFSPI_CSN", None, None),
    PinRow(Some("soc/a6003000.gpio"), 7, 18, 24, "GPIO7", "JTG_TDO", None, None),
    PinRow(Some("soc/a6003000.gpio"), 29, 22, 25, "GPIO29", "BIFSPI_MOSI", None, None),
    PinRow(Some("soc/a6003000.gpio"), 15, 24, 8, "SPI2_CSN", "SPI2_CSN", None, None),
    PinRow(Some("soc/a6003000.gpio"), 28, 26, 7, "GPIO28", "BIFSPI_SCLK", None, None),
    PinRow(Some("soc/a6003000.gpio"), 107, 28, 1, "I2S1_LRCK", "I2S1_LRCK", None, None),
    PinRow(Some("soc/a6003000.gpio"), 25, 32, 12, "PWM4", "PWM4", Some("soc/a500e000.pwm"), Some(1)),
    PinRow(Some("soc/a6003000.gpio"), 3, 36, 16, "GPIO3", "JTG_TCK", None, None),
    PinRow(Some("soc/a6003000.gpio"), 104, 38, 20, "I2S0_SDIO", "I2S0_SDIO", None, None),
    PinRow(Some("soc/a6003000.gpio"), 108, 40, 21, "I2S1_SDIO", "I2S1_SDIO", None, None)
  ]

  /** `X3_CM_PIN`. */
  const X3CmPin: seq<PinRow> := [
    PinRow(Some("soc/a6003000.gpio"), 9, 3, 2, "I2C0_SDA", "I2C0_SDA", None, None),
    PinRow(Some("soc/a6003000.gpio"), 8, 5, 3, "I2C0_SCL", "I2C0_SCL", None, None),
    PinRow(Some("soc/a6003000.gpio"), 101, 7, 4, "I2S0_MCLK", "I2S0_MCLK", None, None),
    PinRow(Some("soc/a6003000.gpio"), 12, 11, 17, "GPIO17", "SPI2_MOSI", Some("soc/a500f000.pwm"), Some(1)),
    PinRow(Some("soc/a6003000.gpio"), 13, 13, 27, "GPIO27", "SPI2_MISO", Some("soc/a500f000.pwm"), Some(2)),
    PinRow(Some("soc/a6003000.gpio"), 30, 15, 22, "GPIO22", "BIFSPI_MISO", None, None),
    PinRow(Some("soc/a6003000.gpio"), 6, 19, 10, "SPI1_MOSI", "SPI1_MOSI", None, None),
    PinRow(Some("soc/a6003000.gpio"), 7, 21, 9, "SPI1_MISO", "SPI1_MISO", None, None),
    PinRow(Some("soc/a6003000.gpio"), 3, 23, 11, "SPI1_SCLK", "SPI1_SCLK", None, None),
    PinRow(Some("soc/a6003000.gpio"), 15, 27, 0, "I2C3_SDA", "I2C3_SDA", None, None),
    PinRow(Some("soc/a6003000.gpio"), 119, 29, 5, "GPIO5", "LPWM3", None, None),
    PinRow(Some("soc/a6003000.gpio"), 118, 31, 6, "GPIO6", "LPWM4", None, None),
    PinRow(Some("soc/a6003000.gpio"), 4, 33, 13, "PWM0", "PWM0", Some("soc/a500d000.pwm"), Some(0)),
    PinRow(Some("soc/a6003000.gpio"), 103, 35, 19, "I2S0_LRCK", "I2S0_LRCK", None, None),
    PinRow(Some("soc/a6003000.gpio"), 117, 37, 26, "GPIO25", "LPWM5", None, None),
    PinRow(Some("soc/a6003000.gpio"), 111, 8, 14, "UART_TXD", "UART3_TXD", None, None),
    PinRow(Some("soc/a6003000.gpio"), 112, 10, 15, "UART_RXD", "UART3_RXD", None, None),
    PinRow(Some("soc/a6003000.gpio"), 102, 12, 18, "I2S0_BCLK", "I2S0_BCLK", None, None),
    PinRow(Some("soc/a6003000.gpio"), 27, 16, 23, "GPIO23", "BIFSPI_CSN", None, None),
    PinRow(Some("soc/a6003000.gpio"), 22, 18, 24, "GPIO24", "PWM1", Some("soc/a500d000.pwm"), Some(1)),
    PinRow(Some("soc/a6003000.gpio"), 29, 22, 25, "GPIO25", "BIFSPI_MOSI", None, None),
    PinRow(Some("soc/a6003000.gpio"), 5, 24, 8, "SPI1_CSN", "SPI1_CSN", None, None),
    PinRow(Some("soc/a6003000.gpio"), 28, 26, 7, "GPIO7", "BIFSPI_SCLK", None, None),
    PinRow(Some("soc/a6003000.gpio"), 14, 28, 1, "I2C3_SCL", "I2C3_SCL", None, None),
    PinRow(Some("soc/a6003000.gpio"), 25, 32, 12, "PWM4", "PWM4", Some("soc/a500e000.pwm"), Some(1)),
    PinRow(Some("soc/a6003000.gpio"), 20, 36, 16, "GPIO16", "BIFSD_CLK", None, None),
    PinRow(Some("soc/a6003000.gpio"), 108, 38, 20, "I2S1_SDIO", "I2S1_SDIO", None, None),
    PinRow(Some("soc/a6003000.gpio"), 104, 40, 21, "I2S0_SDIO", "I2S0_SDIO", None, None)
  ]

  /** `X3_PI_V2_1_PIN`. */
  const X3PiV21Pin: seq<PinRow> := [
    PinRow(Some("soc/a6003000.gpio"), 9, 3, 2, "I2C0_SDA", "I2C0_SDA", None, None),
    PinRow(Some("soc/a6003000.gpio"), 8, 5, 3, "I2C0_SCL", "I2C0_SCL", None, None),
    PinRow(Some("soc/a6003000.gpio"), 101, 7, 4, "I2S0_MCLK", "I2S0_MCLK", None, None),
    PinRow(Some("soc/a6003000.gpio"), 12, 11, 17, "GPIO17", "SPI2_MOSI", Some("soc/a500f000.pwm"), Some(1)),
    PinRow(Some("soc/a6003000.gpio"), 13, 13, 27, "GPIO27", "SPI2_MISO", Some("soc/a500f000.pwm"), Some(2)),
    PinRow(Some("soc/a6003000.gpio"), 30, 15, 22, "GPIO22", "BIFSPI_MISO", None, None),
    PinRow(Some("soc/a6003000.gpio"), 6, 19, 10, "SPI1_MOSI", "SPI1_MOSI", None, None),
    PinRow(Some("soc/a6003000.gpio"), 7, 21, 9, "SPI1_MISO", "SPI1_MISO", None, None),
    PinRow(Some("soc/a6003000.gpio"), 3, 23, 11, "SPI1_SCLK", "SPI1_SCLK", None, None),
    PinRow(Some("soc/a6003000.gpio"), 15, 27, 0, "I2C3_SDA", "I2C3_SDA", None, None),
    PinRow(Some("soc/a6003000.gpio"), 119, 29, 5, "GPIO5", "LPWM3", None, None),
    PinRow(Some("soc/a6003000.gpio"), 118, 31, 6, "GPIO6", "LPWM4", None, None),
    PinRow(Some("soc/a6003000.gpio"), 4, 33, 13, "PWM0", "PWM0", Some("soc/a500d000.pwm"), Some(0)),
    PinRow(Some("soc/a6003000.gpio"), 103, 35, 19, "I2S0_LRCK", "I2S0_LRCK", None, None),
    PinRow(Some("soc/a6003000.gpio"), 117, 37, 26, "GPIO25", "LPWM5", None, None),
    PinRow(Some("soc/a6003000.gpio"), 111, 8, 14, "UART_TXD", "UART3_TXD", None, None),
    PinRow(Some("soc/a6003000.gpio"), 112, 10, 15, "UART_RXD", "UART3_RXD", None, None),
    PinRow(Some("soc/a6003000.gpio"), 102, 12, 18, "I2S0_BCLK", "I2S0_BCLK", None, None),
    PinRow(Some("soc/a6003000.gpio"), 27, 16, 23, "GPIO23", "BIFSPI_CSN", None, None),
    PinRow(Some("soc/a6003000.gpio"), 22, 18, 24, "GPIO24", "PWM1", Some("soc/a500d000.pwm"), Some(1)),
    PinRow(Some("soc/a6003000.gpio"), 29, 22, 25, "GPIO25", "BIFSPI_MOSI", None, None),
    PinRow(Some("soc/a6003000.gpio"), 5, 24, 8, "SPI1_CSN", "SPI1_CSN", None, None),
    PinRow(Some("soc/a6003000.gpio"), 28, 26, 7, "GPIO7", "BIFSPI_SCLK", None, None),
    PinRow(Some("soc/a6003000.gpio"), 14, 28, 1, "I2C3_SCL", "I2C3_SCL", None, None),
    PinRow(Some("soc/a6003000.gpio"), 25, 32, 12, "PWM4", "PWM4", Some("soc/a500e000.pwm"), Some(1)),
    PinRow(Some("soc/a6003000.gpio"), 20, 36, 16, "GPIO16", "BIFSD_CLK", None, None),
    PinRow(Some("soc/a6003000.gpio"), 104, 38, 20, "I2S0_SDIO", "I2S0_SDIO", None, None),
    PinRow(Some("soc/a6003000.gpio"), 108, 40, 21, "I2S1_SDIO", "I2S1_SDIO", None, None)
  ]

  /** `RDK_X5_PIN`. */
  const RdkX5Pin: seq<PinRow> := [
    PinRow(Some("soc/34000000.a55_apb0/34120000.gpio"), 390, 3, 2, "SDA", "I2C5_SDA", None, None),
    PinRow(Some("soc/34000000.a55_apb0/34120000.gpio"), 389, 5, 3, "SCL", "I2C5_SCL", None, None),
    PinRow(Some("soc/32080000.dsp_apb/32150000.gpio"), 420, 7, 4, "GPCLK0", "I2S1_MCLK", None, None),
    PinRow(Some("soc/34000000.a55_apb0/34120000.gpio"), 380, 11, 17, "GPIO17", "UART7_TXD", None, None),
    PinRow(Some("soc/34000000.a55_apb0/34120000.gpio"), 379, 13, 27, "GPIO27", "UART7_RXD", None, None),
    PinRow(Some("soc/34000000.a55_apb0/34120000.gpio"), 388, 15, 22, "GPIO22", "UART2_TXD", None, None),
    PinRow(Some("soc/34000000.a55_apb0/34120000.gpio"), 398, 19, 10, "SPI_MOSI", "SPI1_MOSI", None, None),
    PinRow(Some("soc/34000000.a55_apb0/34120000.gpio"), 397, 21, 9, "SPI_MISO", "SPI1_MISO", None, None),
    PinRow(Some("soc/34000000.a55_apb0/34120000.gpio"), 395, 23, 11, "SPI_SCLK", "SPI1_SCLK", None, None),
    PinRow(Some("soc/34000000.a55_apb0/34130000.gpio"), 355, 27, 0, "ID_SD", "I2C0_SDA", None, None),
    PinRow(Some("soc/34000000.a55_apb0/34120000.gpio"), 399, 29, 5, "GPIO5", "SPI2_SCLK", None, None),
    PinRow(Some("soc/34000000.a55_apb0/34120000.gpio"), 400, 31, 6, "GPIO6", "I2C1_SDA", None, None),
    PinRow(Some("soc/34000000.a55_apb0/34130000.gpio"), 357, 33, 13, "PWM", "PWM7", Some("soc/34000000.a55_apb0/34170000.pwm"), Some(1)),
    PinRow(Some("soc/32080000.dsp_apb/32150000.gpio"), 422, 35, 19, "PCM_FS", "I2S1_LRCK", None, None),
    PinRow(Some("soc/34000000.a55_apb0/34120000.gpio"), 401, 37, 26, "GPIO26", "SPI2_MISO", None, None),
    PinRow(Some("soc/34000000.a55_apb0/34120000.gpio"), 383, 8, 14, "TXD", "UART1_TXD", None, None),
    PinRow(Some("soc/34000000.a55_apb0/34120000.gpio"), 384, 10, 15, "RXD", "UART1_RXD", None, None),
    PinRow(Some("soc/32080000.dsp_apb/32150000.gpio"), 421, 12, 18, "PCM_CLK", "I2S1_BCLK", None, None),
    PinRow(Some("soc/34000000.a55_apb0/34120000.gpio"), 382, 16, 23, "GPIO23", "UART6_TXD", None, None),
    PinRow(Some("soc/34000000.a55_apb0/34120000.gpio"), 402, 18, 24, "GPIO24", "SPI2_MOSI", None, None),
    PinRow(Some("soc/34000000.a55_apb0/34120000.gpio"), 387, 22, 25, "GPIO25", "UART2_RXD", None, None),
    PinRow(Some("soc/34000000.a55_apb0/34120000.gpio"), 394, 24, 8, "SPI_CSN0", "SPI1_CSN1", None, None),
    PinRow(Some("soc/34000000.a55_apb0/34120000.gpio"), 396, 26, 7, "SPI_CSN1", "SPI1_CSN0", None, None),
    PinRow(Some("soc/34000000.a55_apb0/34130000.gpio"), 354, 28, 1, "ID_SC", "I2C0_SCL", None, None),
    PinRow(Some("soc/34000000.a55_apb0/34130000.gpio"), 356, 32, 12, "PWM", "PWM6", Some("soc/34000000.a55_apb0/34170000.pwm"), Some(0)),
    PinRow(Some("soc/34000000.a55_apb0/34120000.gpio"), 381, 36, 16, "GPIO16", "BIFSD_CLK", None, None),
    PinRow(Some("soc/32080000.dsp_apb/32150000.gpio"), 423, 38, 20, "PCM_DIN", "I2S1_SDIN", None, None),
    PinRow(Some("soc/32080000.dsp_apb/32150000.gpio"), 424, 40, 21, "PCM_DOUT", "I2S1_SDOUT", None, None)
  ]

  /** `EVB_X5_PIN`. */
  const EvbX5Pin: seq<PinRow> := [
    PinRow(Some("soc/34000000.a55_apb0/34120000.gpio"), 390, 3, 2, "SDA5", "I2C5_SDA", None, None),
    PinRow(Some("soc/34000000.a55_apb0/34120000.gpio"), 389, 5, 3, "SCL5", "I2C5_SCL", None, None),
    PinRow(Some("soc/32080000.dsp_apb/32150000.gpio"), 420, 7, 4, "I2S1_MCLK", "DSP_MCLK1", None, None),
    PinRow(Some("soc/34000000.a55_apb0/34120000.gpio"), 382, 11, 17, "GPIO17", "UART7_RTS", None, None),
    PinRow(Some("soc/34000000.a55_apb0/34120000.gpio"), 381, 13, 27, "GPIO27", "UART7_CTS", None, None),
    PinRow(Some("soc/34000000.a55_apb0/34120000.gpio"), 385, 15, 22, "GPIO22", "UART1_CTS", None, None),
    PinRow(Some("soc/34000000.a55_apb0/34120000.gpio"), 402, 19, 10, "SPI2_MOSI", "SPI2_MOSI", None, None),
    PinRow(Some("soc/34000000.a55_apb0/34120000.gpio"), 401, 21, 9, "SPI2_MISO", "SPI2_MISO", None, None),
    PinRow(Some("soc/34000000.a55_apb0/34120000.gpio"), 399, 23, 11, "SPI2_SCLK", "SPI2_SCLK", None, None),
    PinRow(Some("soc/34000000.a55_apb0/34130000.gpio"), 357, 27, 0, "SDA1", "I2C1_SDA", None, None),
    PinRow(Some("soc/34000000.a55_apb0/34120000.gpio"), 379, 29, 5, "GPIO5", "UART7_RX", None, None),
    PinRow(Some("soc/34000000.a55_apb0/34120000.gpio"), 380, 31, 6, "GPIO6", "UART7_TX", None, None),
    PinRow(Some("soc/34000000.a55_apb0/34130000.gpio"), 354, 33, 13, "PWM4", "PWM4", Some("soc/34000000.a55_apb0/34160000.pwm"), Some(0)),
    PinRow(Some("soc/32080000.dsp_apb/32150000.gpio"), 422, 35, 19, "I2S1_WS", "I2S1_WS", None, None),
    PinRow(Some("soc/34000000.a55_apb0/34120000.gpio"), 386, 37, 26, "GPIO26", "UART1_RTS", None, None),
    PinRow(Some("soc/34000000.a55_apb0/34120000.gpio"), 387, 8, 14, "TXD", "UART2_TXD", None, None),
    PinRow(Some("soc/34000000.a55_apb0/34120000.gpio"), 388, 10, 15, "RXD", "UART2_RXD", None, None),
    PinRow(Some("soc/32080000.dsp_apb/32150000.gpio"), 421, 12, 18, "I2S1_BCLK", "I2S1_BCLK", None, None),
    PinRow(Some("soc/34000000.a55_apb0/34120000.gpio"), 383, 16, 23, "GPIO23", "UART1_RXD", None, None),
    PinRow(Some("soc/34000000.a55_apb0/34120000.gpio"), 384, 18, 24, "GPIO24", "UART1_TXD", None, None),
    PinRow(Some("soc/34000000.a55_apb0/34120000.gpio"), 391, 22, 25, "GPIO25", "UART4_RXD", None, None),
    PinRow(Some("soc/34000000.a55_apb0/34120000.gpio"), 400, 24, 8, "SPI2_CSN", "SPI2_CSN", None, None),
    PinRow(Some("soc/34000000.a55_apb0/34120000.gpio"), 392, 26, 7, "GPIO7", "UART4_TXD", None, None),
    PinRow(Some("soc/34000000.a55_apb0/34130000.gpio"), 356, 28, 1, "SCL1", "I2C1_SCL", None, None),
    PinRow(Some("soc/34000000.a55_apb0/34130000.gpio"), 355, 32, 12, "PWM", "PWM5", Some("soc/34000000.a55_apb0/34160000.pwm"), Some(1)),
    PinRow(Some("soc/32080000.dsp_apb/32150000.gpio"), 423, 38, 20, "I2S1_DI", "I2S1_SDIN", None, None),
    PinRow(Some("soc/32080000.dsp_apb/32150000.gpio"), 424, 40, 21, "I2S1_DO", "I2S1_SDOUT", None, None)
  ]

  /** `ALL_BOARD_DATA_X3`: the boards of X3 systems. */
  const AllBoardDataX3: seq<BoardData> := [
    BoardData("X3SDBV3", Sdbv3Pin, 0x304),
    BoardData("X3SDB", SdbPin, 0x404),
    BoardData("X3PI", X3PiPin, 0x504),
    BoardData("X3PI", X3PiPin, 0x604),
    BoardData("X3CM", X3CmPin, 0xb04),
    BoardData("X3PI_V2_1", X3PiV21Pin, 0x804)
  ]

  /** `ALL_BOARD_DATA_X5`: the boards of X5 systems. */
  const AllBoardDataX5: seq<BoardData> := [
    BoardData("RDK_X5", RdkX5Pin, 0x301),
    BoardData("RDK_X5", RdkX5Pin, 0x302),
    BoardData("RDK_X5", RdkX5Pin, 0x501),
    BoardData("RDK_X5", RdkX5Pin, 0x502),
    BoardData("RDK_X5", RdkX5Pin, 0x503),
    BoardData("RDK_X5", RdkX5Pin, 0x504),
    BoardData("RDK_X5", RdkX5Pin, 0x505),
    BoardData("RDK_X5", RdkX5Pin, 0x506),
    BoardData("EVB_X5", EvbX5Pin, 0x201),
    BoardData("EVB_X5", EvbX5Pin, 0x202),
    BoardData("EVB_X5", EvbX5Pin, 0x203),
    BoardData("EVB_X5", EvbX5Pin, 0x204)
  ]
}
