# solo_sangeet firmware core, modelled in Dafny

This project models the core of the solo_sangeet ESP32 firmware: a WAV player that streams a file from an SD card into a ring buffer, with a touch screen and an SPI display.

- **The audio player** (`AudioCore`, `AudioPlayer`, `AudioControl`).
  - `audio_player_start`, `audio_player_stop`, `audio_player_is_playing` and the reader task work on the file-scope `playing`, `stop_requested` and `audio_fp`.
  - The reader task reads the track in 2048-byte chunks. It pushes each chunk into a 32 KiB byte ring buffer that accepts a chunk whole or not at all. At the end of the file it posts EOF to an eight-slot command queue, then tears itself down.
  - The control task is a four-state machine driven by that queue.
  - The tasks run concurrently. So the player is first a `Session` value with one step function per atomic action, and `AudioPlayer.Inv` holds after every interleaving of those actions. The `Player` and `Controller` classes then do the same work on fields, and their methods are proved equal to the step functions.
- **The play button** (`PlayerUi`): the `is_playing` flag, the icon, and the command each click puts on the queue.
- **The display drivers** (`Spi`, `Ili9341`, `Ili9488`, `St7735`). Every SPI call is an append to a log of transactions, each a D/C level and the bytes sent.
  - The model covers rotation tables, drawing windows, rectangle and line clamping, and byte order.
  - It also covers the chunked transmit loops. Their chunks add up to exactly the pixels of the window.
- **The touch controller** (`Xpt2046`): one three-byte exchange per conversion and the decoding of the 12-bit sample.
- **The SD-card helpers** (`SdCardFs`).
  - `list_files`: skips the dot entries, indents each entry by its level and reports wav files, over a modelled sequence of `f_readdir` results.
  - `s_example_read_file`: the `fgets` of the first line and the removal of its newline, on a `char` array.
- **Shared types** (`Bytes`): bytes, 16-bit words and the byte swap.

Inputs of the model:
- The file system, the bytes a touch controller answers with, the IRQ level and the outcome of `malloc` and `fopen` are all parameters.
- Macros that the driver files use but do not define are parameters too: the ST7735 resolution, the ILI9488 MADCTL command and flags, and the touch commands `CMD_READ_X`/`CMD_READ_Y`.

## Model

| member | source | states |
|---|---|---|
| `Bytes.Swap16` | firmware/solo_sangeet/components/ili9341_driver/ili9341_driver.c:275-278 | the result's high byte is the argument's low byte and its low byte is the argument's high byte |
| `Bytes.Swap16Involution` | firmware/solo_sangeet/components/ili9341_driver/ili9341_driver.c:275-278 | swapping twice gives back the original colour |
| `Bytes.PairRepeatFromPattern` | firmware/solo_sangeet/components/ili9488_driver/ili9488_driver.c:336-341 | a buffer whose even bytes are `a` and odd bytes are `b` is the stream of `n` pairs (a, b) |
| `Spi.Span` | firmware/solo_sangeet/components/ili9341_driver/ili9341_driver.c:258-272 | definition: a start and an end coordinate as four one-byte data transactions, each high byte first |
| `Spi.Window` | firmware/solo_sangeet/components/ili9341_driver/ili9341_driver.c:252-273 | definition: the eleven transactions that open a drawing window (CASET and its span, RASET and its span, RAMWR); `WindowRoundTrip` and `DecodeWindowUnique` state what they mean |
| `Spi.Pixels` | firmware/solo_sangeet/components/ili9341_driver/ili9341_driver.c:82-91 | definition: the bytes a buffer of 16-bit words puts on the wire from little-endian memory, low byte first; `PixelsOfRepeat` and `PixelsOfSwapped` state its use |
| `Spi.FillChunks` | firmware/solo_sangeet/components/ili9341_driver/ili9341_driver.c:315-333 | definition: a fill of n pixels from a prefilled buffer, a full buffer at a time and then the remainder; `FillChunksPayload` and `FillChunksShape` state what it carries |
| `Spi.DataPairs` | firmware/solo_sangeet/components/st7735_driver/st7735_driver.c:130-133 | definition: each pixel as two one-byte data transactions; `DataPairsPayload` states what they carry |
| `Spi.Bus.SendCommand` | firmware/solo_sangeet/components/ili9341_driver/ili9341_driver.c:60-69 | one transaction with D/C low carrying the command byte is appended |
| `Spi.Bus.SendData` | firmware/solo_sangeet/components/ili9341_driver/ili9341_driver.c:71-80 | one transaction with D/C high carrying the data byte is appended |
| `Spi.Bus.SendBuffer` | firmware/solo_sangeet/components/ili9341_driver/ili9341_driver.c:82-91 | one data transaction carrying the whole buffer is appended |
| `Spi.Bus.SendAxis` | firmware/solo_sangeet/components/ili9341_driver/ili9341_driver.c:258-262 | the axis command, then the start and end coordinate, each high byte first, as five transactions |
| `Spi.WindowRoundTrip` | firmware/solo_sangeet/components/ili9341_driver/ili9341_driver.c:252-273 | the panel decodes the eleven window transactions back to exactly the rectangle sent |
| `Spi.DecodeWindowUnique` | firmware/solo_sangeet/components/ili9341_driver/ili9341_driver.c:252-273 | the encoding is the only transaction sequence that decodes to a given rectangle |
| `Spi.FillChunksPayload` | firmware/solo_sangeet/components/ili9341_driver/ili9341_driver.c:315-333 | the chunks of a buffered fill carry, between them, exactly `n` pixels of the colour |
| `Spi.FillChunksShape` | firmware/solo_sangeet/components/ili9341_driver/ili9341_driver.c:315-333 | every chunk is data, none is empty or larger than the buffer, all but the last are full, and a fill of no pixels sends nothing |
| `Spi.PixelsOfRepeat` | firmware/solo_sangeet/components/ili9341_driver/ili9341_driver.c:306-311 | a buffer of one repeated word goes out as its low byte then high byte, per pixel (little-endian memory) |
| `Spi.DataPairsPayload` | firmware/solo_sangeet/components/st7735_driver/st7735_driver.c:130-133 | a byte-at-a-time pixel loop sends `2n` one-byte data transactions carrying the `n` pixel pairs |
| `Ili9341.Madctl` | firmware/solo_sangeet/components/ili9341_driver/ili9341_driver.c:222-250 | definition: the rotation table 0x48/0x28/0x88/0xE8, None for any other value; `MadctlRoundTrip` and `MadctlIsFlagCombination` state its properties |
| `Ili9341.FillWindow` | firmware/solo_sangeet/components/ili9341_driver/ili9341_driver.c:282-300 | definition: the full-screen window per rotation, landscape for 90 and 270; `FillWindowFollowsMadctl` states its properties |
| `Ili9341.AddressWindow` | firmware/solo_sangeet/components/ili9341_driver/ili9341_driver.c:252-273 | definition: nothing when x1 < x0 or y1 < y0, otherwise the window transactions |
| `Ili9341.FillRectLog` | firmware/solo_sangeet/components/ili9341_driver/ili9341_driver.c:341-384 | definition: everything a rectangle fill sends; `FillRectFillsItsWindow` and `ZeroWidthAtOriginSendsWindow` state what it means |
| `Ili9341.FlushChunks` | firmware/solo_sangeet/components/ili9341_driver/ili9341_driver.c:404-418 | definition: the flush transactions, up to 1024 swapped pixels each; `FlushChunksCarrySource` and `FlushChunksBounded` state what they carry |
| `Ili9341.FlushCount` | firmware/solo_sangeet/components/ili9341_driver/ili9341_driver.c:399 | definition: the pixel count (x2-x1+1) x (y2-y1+1), none when it is not positive |
| `Ili9341.MadctlRoundTrip` | firmware/solo_sangeet/components/ili9341_driver/ili9341_driver.c:222-250 | the rotation table is one-to-one: each of 0/90/180/270 has its own MADCTL byte 0x48/0x28/0x88/0xE8, and every other value has none |
| `Ili9341.MadctlIsFlagCombination` | firmware/solo_sangeet/components/ili9341_driver/ili9341_driver.c:227-241 | the four bytes are MX, MV, MY and MX and MY and MV, each combined with BGR |
| `Ili9341.FillWindowFollowsMadctl` | firmware/solo_sangeet/components/ili9341_driver/ili9341_driver.c:280-300 | the fill window is landscape exactly for the rotations whose MADCTL byte has MV set, and it always covers 240 x 320 pixels |
| `Ili9341.Clamp` | firmware/solo_sangeet/components/ili9341_driver/ili9341_driver.c:348-352 | the kept extent is at most the requested one and stays on the panel; it is the requested one when that fits, and otherwise reaches exactly the edge |
| `Ili9341.FillRectFillsItsWindow` | firmware/solo_sangeet/components/ili9341_driver/ili9341_driver.c:344-383 | a rectangle with area on the panel opens a window that decodes to the clamped rectangle, followed by exactly clamped-w x clamped-h pixels of the colour, high byte first |
| `Ili9341.FillRectLogShape` | firmware/solo_sangeet/components/ili9341_driver/ili9341_driver.c:363 | with area left, no window coordinate wraps around 16 bits |
| `Ili9341.ZeroWidthAtOriginSendsWindow` | firmware/solo_sangeet/components/ili9341_driver/ili9341_driver.c:363 | a zero-width rectangle at column 0 still sends a window, with end column 0xFFFF, and no pixels |
| `Ili9341.SwapAll` | firmware/solo_sangeet/components/ili9341_driver/ili9341_driver.c:411-413 | each source pixel is byte-swapped, in order |
| `Ili9341.PixelsOfSwapped` | firmware/solo_sangeet/components/ili9341_driver/ili9341_driver.c:410-415 | swapped words transmitted from little-endian memory put the original words on the wire high byte first |
| `Ili9341.FlushChunksCarrySource` | firmware/solo_sangeet/components/ili9341_driver/ili9341_driver.c:404-418 | the flush puts the source pixels on the wire in source order, each high byte first |
| `Ili9341.FlushChunksBounded` | firmware/solo_sangeet/components/ili9341_driver/ili9341_driver.c:404-408 | every flush transaction is data and carries between one and `SPI_MAX_PIXELS_AT_ONCE` pixels |
| `Ili9341.Driver.constructor` | firmware/solo_sangeet/components/ili9341_driver/ili9341_driver.c:14-22 | the fill buffer holds 2048 pixels and is distinct from the flush buffer of 1024 |
| `Ili9341.Driver.SetRotation` | firmware/solo_sangeet/components/ili9341_driver/ili9341_driver.c:222-250 | an invalid rotation returns `ESP_ERR_INVALID_ARG` and sends nothing; a valid one sends MADCTL and its byte and returns `ESP_OK` |
| `Ili9341.Driver.SetAddressWindow` | firmware/solo_sangeet/components/ili9341_driver/ili9341_driver.c:252-273 | nothing is sent when x1 < x0 or y1 < y0; otherwise CASET, x0, x1, RASET, y0, y1 and RAMWR, coordinates high byte first |
| `Ili9341.Driver.FillDmaBuffer` | firmware/solo_sangeet/components/ili9341_driver/ili9341_driver.c:308-311 | every entry of the fill buffer holds the given word |
| `Ili9341.Driver.TransmitFill` | firmware/solo_sangeet/components/ili9341_driver/ili9341_driver.c:315-333 | the loop sends exactly the chunk sequence of `total` pixels, at most 2048 per transaction |
| `Ili9341.Driver.FillScreen` | firmware/solo_sangeet/components/ili9341_driver/ili9341_driver.c:280-334 | the rotation's full-screen window, then 240 x 320 pixels in 2048-pixel chunks; the buffer is left holding the swapped colour |
| `Ili9341.Driver.FillScreenWhite` | firmware/solo_sangeet/components/ili9341_driver/ili9341_driver.c:336-339 | the fill with colour 0xFFFF |
| `Ili9341.Driver.FillRectDma` | firmware/solo_sangeet/components/ili9341_driver/ili9341_driver.c:341-384 | nothing for an origin off the panel; otherwise the clamped window and the clamped pixel count in chunks |
| `Ili9341.Driver.FillRectPixels` | firmware/solo_sangeet/components/ili9341_driver/ili9341_driver.c:354-383 | the address window of the clamped corners, then `total` pixels in chunks |
| `Ili9341.Driver.FlushSpi` | firmware/solo_sangeet/components/ili9341_driver/ili9341_driver.c:389-419 | the window of the converted corners, then the first (x2-x1+1) x (y2-y1+1) source pixels, swapped, 1024 at a time |
| `Ili9341.Driver.SwapInto` | firmware/solo_sangeet/components/ili9341_driver/ili9341_driver.c:410-413 | `tx_buf` starts with the swapped source pixels from `sent` on |
| `Ili9341.Driver.SendSwapped` | firmware/solo_sangeet/components/ili9341_driver/ili9341_driver.c:403-418 | the loop sends exactly the flush chunks of the first `total` pixels, none when `total` is not positive |
| `Ili9488.Madctl` | firmware/solo_sangeet/components/ili9488_driver/ili9488_driver.c:184-208 | definition: the rotation table in terms of the MADCTL flag macros, None for an invalid rotation |
| `Ili9488.DrawThickLineLog` | firmware/solo_sangeet/components/ili9488_driver/ili9488_driver.c:276-356 | definition: the result code and the transactions of a thick line; `DrawThickLineOutcome` states what they mean |
| `Ili9488.FillScreenLog` | firmware/solo_sangeet/components/ili9488_driver/ili9488_driver.c:210-235 | definition: the full window, then `ILI9488_DISPLAY_SIZE` pixels as byte pairs; `FillScreenCoversTopRows` states how much of the window they fill |
| `Ili9488.MadctlAgreesWithIli9341` | firmware/solo_sangeet/components/ili9488_driver/ili9488_driver.c:184-208 | with the MADCTL command 0x36, MX/MY/MV at their MIPI bit positions and the colour-order bit (0x08) set, the ILI9488 rotation table equals the ILI9341 one, invalid rotations included |
| `Ili9488.LineWindow` | firmware/solo_sangeet/components/ili9488_driver/ili9488_driver.c:279-309 | a window exists exactly for on-panel endpoints, non-zero thickness and a horizontal or vertical line. It covers both endpoints and stays on the panel. Along the line it runs from the smaller to the larger coordinate. Across the line it widens by `thickness / 2` on each side, cut only at the panel edge |
| `Ili9488.DrawThickLineOutcome` | firmware/solo_sangeet/components/ili9488_driver/ili9488_driver.c:276-356 | `ESP_OK` exactly when the line is accepted and the buffer is allocated, and `ESP_ERR_INVALID_ARG` exactly when it is rejected, with nothing sent. Every accepted line sends its window first. A failed allocation sends nothing more. A drawn line then sends exactly one pixel per window position, low byte first |
| `Ili9488.FillScreenCoversTopRows` | firmware/solo_sangeet/components/ili9488_driver/ili9488_driver.c:210-235 | the fill opens a 320 x 480 window but sends only 128 x 160 pixels, which cover its first 64 rows |
| `Ili9488.Driver.SetRotation` | firmware/solo_sangeet/components/ili9488_driver/ili9488_driver.c:184-208 | an invalid rotation returns `ESP_ERR_INVALID_ARG` and sends nothing; a valid one sends the MADCTL command and the table's byte |
| `Ili9488.Driver.SendWindow` | firmware/solo_sangeet/components/ili9488_driver/ili9488_driver.c:311-326 | column set, row set and memory write for the window, one byte per transaction |
| `Ili9488.Driver.FillScreen` | firmware/solo_sangeet/components/ili9488_driver/ili9488_driver.c:210-235 | the window 0..0x13F x 0..0x1DF, then `ILI9488_DISPLAY_SIZE` pixels, each the colour's low byte then its high byte |
| `Ili9488.Driver.FillScreenWhite` | firmware/solo_sangeet/components/ili9488_driver/ili9488_driver.c:271-274 | the fill with colour 0xFFFF |
| `Ili9488.Driver.DrawThickLine` | firmware/solo_sangeet/components/ili9488_driver/ili9488_driver.c:276-356 | returns and sends exactly what `DrawThickLineLog` describes |
| `Ili9488.Driver.LineBounds` | firmware/solo_sangeet/components/ili9488_driver/ili9488_driver.c:279-309 | the checks accept exactly the lines `LineWindow` accepts, and the computed bounds are its window |
| `Ili9488.Driver.NewLineBuffer` | firmware/solo_sangeet/components/ili9488_driver/ili9488_driver.c:330-341 | a fresh 1024-byte buffer whose even bytes are the colour's low byte and odd bytes its high byte |
| `Ili9488.Driver.SendLineChunks` | firmware/solo_sangeet/components/ili9488_driver/ili9488_driver.c:343-351 | the loop sends exactly `total` pixels, at most 512 per transaction |
| `St7735.Madctl` | firmware/solo_sangeet/components/st7735_driver/st7735_driver.c:94-118 | definition: the rotation table, None for an invalid rotation; `MadctlQuarterTurns` states its properties |
| `St7735.FillLog` | firmware/solo_sangeet/components/st7735_driver/st7735_driver.c:120-151 | definition: a window, then each pixel high byte first as two one-byte transactions, shared by both fill functions |
| `St7735.MadctlQuarterTurns` | firmware/solo_sangeet/components/st7735_driver/st7735_driver.c:94-118 | the four MADCTL bytes are distinct, and exactly the 90 and 270 rotations exchange rows and columns |
| `St7735.InitOrder` | firmware/solo_sangeet/components/st7735_driver/st7735_driver.c:79-91 | reset comes first and display-on last, each exactly once. The pixel format and the orientation are each set, with their argument next |
| `St7735.FillScreenWindowTransposed` | firmware/solo_sangeet/components/st7735_driver/st7735_driver.c:120-134 | the fill as written opens a 160-column by 128-row window, so a white fill through it differs from `st7735_fill_screen_white` |
| `St7735.IntendedFillLog` | firmware/solo_sangeet/components/st7735_driver/st7735_driver.c:136-151 | the fill with the stated 128 x 160 window: it decodes to columns 0..127 and rows 0..159, carries the pixels high byte first, and for white equals `st7735_fill_screen_white` |
| `St7735.Driver.Init` | firmware/solo_sangeet/components/st7735_driver/st7735_driver.c:68-92 | the command sequence is exactly `INIT_SEQUENCE` |
| `St7735.Driver.SetRotation` | firmware/solo_sangeet/components/st7735_driver/st7735_driver.c:94-118 | an invalid rotation returns `ESP_ERR_INVALID_ARG` and sends nothing; a valid one sends 0x36 and its byte |
| `St7735.Driver.SendPixels` | firmware/solo_sangeet/components/st7735_driver/st7735_driver.c:130-133 | HOR x VER pixels, each high byte then low byte, one byte per transaction |
| `St7735.Driver.FillScreen` | firmware/solo_sangeet/components/st7735_driver/st7735_driver.c:120-134 | columns 0..0x9F, rows 0..0x7F, memory write, then the pixels |
| `St7735.Driver.FillScreenWhite` | firmware/solo_sangeet/components/st7735_driver/st7735_driver.c:136-152 | columns 0..0x7F, rows 0..0x9F, memory write, then white pixels |
| `Xpt2046.Decode` | firmware/solo_sangeet/components/ili9341_driver/xpt2046_touch_driver.c:40-42 | the value is `rx[1]` followed by the top five bits of `rx[2]`, so it is below 0x2000 |
| `Xpt2046.DecodeDropsLowBits` | firmware/solo_sangeet/components/ili9341_driver/xpt2046_touch_driver.c:40-42 | only the three low bits of `rx[2]` are ignored, and the value fits 12 bits exactly when the top bit of `rx[1]` is clear |
| `Xpt2046.DecodeInjective` | firmware/solo_sangeet/components/ili9341_driver/xpt2046_touch_driver.c:40-42 | equal values come from answers that agree except in those three bits |
| `Xpt2046.Touch.ReadCmd` | firmware/solo_sangeet/components/ili9341_driver/xpt2046_touch_driver.c:27-43 | the frame [cmd, 0, 0] is sent and the decoded answer returned |
| `Xpt2046.Touch.ReadRaw` | firmware/solo_sangeet/components/ili9341_driver/xpt2046_touch_driver.c:45-56 | IRQ high reports not pressed and leaves x, y and the bus untouched. Otherwise X is read before Y, both are decoded, and pressed is reported |
| `Xpt2046.Touch.ReadXY` | firmware/solo_sangeet/components/ili9341_driver/xpt2046_touch_driver.c:58-65 | both outputs and the result are 0 |
| `SdCardFs.Contains` | firmware/solo_sangeet/components/sd_card_fs/sd_card_fs.c:114 | definition: the `strstr` test; `ContainsIffOccurs` states what it means |
| `SdCardFs.IsWav` | firmware/solo_sangeet/components/sd_card_fs/sd_card_fs.c:114 | definition: ".wav" or ".WAV" occurs in the name; `IsWavExamples` shows it is a case-sensitive substring test |
| `SdCardFs.Scan` | firmware/solo_sangeet/components/sd_card_fs/sd_card_fs.c:85-131 | definition: the console text and reported names of the read loop; `ScanStopsAtFirstEnd`, `ScanConsole` and `ScanFound` state what they are |
| `SdCardFs.ContainsIffOccurs` | firmware/solo_sangeet/components/sd_card_fs/sd_card_fs.c:114 | the `strstr` test finds a pattern exactly when it occurs at some position of the name |
| `SdCardFs.IsWavExamples` | firmware/solo_sangeet/components/sd_card_fs/sd_card_fs.c:114-117 | "a.wav", "A.WAV" and "a.wav.bak" are reported; "a.Wav", "wav" and "" are not |
| `SdCardFs.Indent` | firmware/solo_sangeet/components/sd_card_fs/sd_card_fs.c:97-99 | 2 x level spaces, none for a level below 1 |
| `SdCardFs.StopIndex` | firmware/solo_sangeet/components/sd_card_fs/sd_card_fs.c:85-89 | the position of the first error or empty name, with every entry before it a nonempty name |
| `SdCardFs.Listed` | firmware/solo_sangeet/components/sd_card_fs/sd_card_fs.c:85-95 | the entries the loop handles are nonempty names other than "." and ".." |
| `SdCardFs.ScanStopsAtFirstEnd` | firmware/solo_sangeet/components/sd_card_fs/sd_card_fs.c:85-89 | nothing after the first read error or empty name changes the output |
| `SdCardFs.ScanConsole` | firmware/solo_sangeet/components/sd_card_fs/sd_card_fs.c:97-99 | the printed text is one indent of 2 x level spaces per listed entry and nothing else |
| `SdCardFs.ScanFound` | firmware/solo_sangeet/components/sd_card_fs/sd_card_fs.c:92-117 | the reported names are exactly the listed names that pass the wav test, in order; none is a dot entry |
| `SdCardFs.WavOnly` | firmware/solo_sangeet/components/sd_card_fs/sd_card_fs.c:114-117 | a name is kept exactly when it is among the given names and passes the wav test |
| `SdCardFs.FgetsLine` | firmware/solo_sangeet/components/sd_card_fs/sd_card_fs.c:59-60 | a prefix of the file of at most size - 1 characters, with no newline before its end, ending at the first newline unless the buffer or the file runs out first |
| `SdCardFs.FirstIndex` | firmware/solo_sangeet/components/sd_card_fs/sd_card_fs.c:64 | the first position holding the character, or the length when there is none |
| `SdCardFs.Strip` | firmware/solo_sangeet/components/sd_card_fs/sd_card_fs.c:63-67 | the line is cut at its first newline and left unchanged without one |
| `SdCardFs.FgetsThenStrip` | firmware/solo_sangeet/components/sd_card_fs/sd_card_fs.c:59-67 | the logged text is a newline-free prefix of the file of at most size - 1 characters, cut short of both limits only at a newline |
| `SdCardFs.ReadLineMeaning` | firmware/solo_sangeet/components/sd_card_fs/sd_card_fs.c:59-68 | the same for `EXAMPLE_MAX_CHAR_SIZE`: at most 63 characters of the first line |
| `SdCardFs.SdCard.ListFiles` | firmware/solo_sangeet/components/sd_card_fs/sd_card_fs.c:73-134 | a failed open changes nothing and does not close. An open directory appends the scan's indents and wav names and closes the directory exactly once |
| `SdCardFs.SdCard.ReportEntry` | firmware/solo_sangeet/components/sd_card_fs/sd_card_fs.c:97-117 | one indent, then the name reported exactly when it passes the wav test |
| `SdCardFs.SdCard.PrintIndent` | firmware/solo_sangeet/components/sd_card_fs/sd_card_fs.c:97-99 | the loop prints exactly `Indent(level)` |
| `SdCardFs.SdCard.ReadFile` | firmware/solo_sangeet/components/sd_card_fs/sd_card_fs.c:51-71 | `ESP_FAIL` when the file does not open; otherwise `ESP_OK` and the first line cut at its newline |
| `SdCardFs.SdCard.Fgets` | firmware/solo_sangeet/components/sd_card_fs/sd_card_fs.c:59-60 | the buffer holds the `fgets` line, NUL-terminated within the buffer |
| `SdCardFs.SdCard.StripNewline` | firmware/solo_sangeet/components/sd_card_fs/sd_card_fs.c:63-67 | the C string in the buffer becomes the old one cut at its first newline |
| `SdCardFs.SdCard.ReadCString` | firmware/solo_sangeet/components/sd_card_fs/sd_card_fs.c:68 | the characters of the buffer up to its NUL |
| `AudioCore.QueueSend` | firmware/solo_sangeet/components/audio_player/audio_player.c:94 | a send with no wait appends the command exactly when a slot is free and drops it otherwise; the queue never exceeds 8 |
| `AudioCore.RingSend` | firmware/solo_sangeet/components/audio_player/audio_player.c:99-103 | the chunk is appended whole exactly when it fits (or is empty), otherwise nothing; the buffer never exceeds 32 KiB |
| `AudioCore.CommandQueue.constructor` | firmware/solo_sangeet/components/audio_player/audio_player.c:34 | the queue starts empty |
| `AudioCore.CommandQueue.Send` | firmware/solo_sangeet/components/audio_player/audio_player.c:94 | reports success exactly when a slot was free, and updates the queue as `QueueSend` |
| `AudioCore.CommandQueue.Receive` | firmware/solo_sangeet/components/audio_player/audio_player.c:133 | the oldest command is removed and returned; nothing when the queue is empty |
| `AudioCore.RingBuffer.constructor` | firmware/solo_sangeet/components/audio_player/audio_player.c:38 | the ring buffer starts empty |
| `AudioCore.RingBuffer.Send` | firmware/solo_sangeet/components/audio_player/audio_player.c:99-103 | reports success exactly when the chunk fits, and updates the buffer as `RingSend` |
| `AudioCore.Read` | firmware/solo_sangeet/components/audio_player/audio_player.c:89 | at most `n` bytes, the next ones of the file, all of the rest when fewer than `n` remain; the position advances past them |
| `AudioCore.Chunks` | firmware/solo_sangeet/components/audio_player/audio_player.c:83-89 | nonempty pieces of at most `n` bytes, all but the last exactly `n` |
| `AudioCore.ChunksFlatten` | firmware/solo_sangeet/components/audio_player/audio_player.c:87-104 | the pieces laid end to end are the data: nothing lost, nothing added |
| `AudioCore.ReadTakesFirstChunk` | firmware/solo_sangeet/components/audio_player/audio_player.c:89 | one read takes exactly the first chunk of what remains |
| `AudioCore.Feed` | firmware/solo_sangeet/components/audio_player/audio_player.c:99-103 | sending chunks one after another only adds to the buffer and keeps it within capacity |
| `AudioCore.FeedAllFits` | firmware/solo_sangeet/components/audio_player/audio_player.c:87-104 | when everything fits, the buffer receives all chunks' bytes in order |
| `AudioPlayer.StartStep` | firmware/solo_sangeet/components/audio_player/audio_player.c:47-69 | definition: `audio_player_start` on the shared state; `StartOutcome` states its cases |
| `AudioPlayer.StopStep` | firmware/solo_sangeet/components/audio_player/audio_player.c:71-79 | definition: `audio_player_stop` on the shared state; `StopOutcome` states its effect |
| `AudioPlayer.Teardown` | firmware/solo_sangeet/components/audio_player/audio_player.c:106-118 | definition: the reader cleanup as one step: flags cleared, file closed, task deleted |
| `AudioPlayer.ReaderStep` | firmware/solo_sangeet/components/audio_player/audio_player.c:87-104 | definition: one step of a reader; `ReaderExitCleansUp`, `FailedSendDropsChunk` and `ReadTakesNextBytes` state its cases |
| `AudioPlayer.SoloRun` | firmware/solo_sangeet/components/audio_player/audio_player.c:81-119 | definition: a reader run alone to its end; `SoloRunStreamsFile` states what it does |
| `AudioPlayer.InvInitial` | firmware/solo_sangeet/components/audio_player/audio_player.c:29-45 | the state after init satisfies the player invariant |
| `AudioPlayer.InvStep` | firmware/solo_sangeet/components/audio_player/audio_player.c:47-119 | every start, stop, reader step, consumer read and queue operation keeps the invariant, and every existing reader can take its step |
| `AudioPlayer.InvRun` | firmware/solo_sangeet/components/audio_player/audio_player.c:47-119 | the invariant holds after any interleaving of those actions |
| `AudioPlayer.AtMostOneReader` | firmware/solo_sangeet/components/audio_player/audio_player.c:63-65 | from start-up, however the tasks interleave, at most one reader exists, and one exists exactly while `playing` |
| `AudioPlayer.StartOutcome` | firmware/solo_sangeet/components/audio_player/audio_player.c:47-69 | refused without effect while playing. Refused with `audio_fp` NULL and `playing` false when the file does not open. Otherwise it succeeds: the file is positioned at byte 44, `playing` is set, and exactly one reader is added |
| `AudioPlayer.StopOutcome` | firmware/solo_sangeet/components/audio_player/audio_player.c:71-79 | nothing when not playing; otherwise only `stop_requested` is raised |
| `AudioPlayer.ReaderExitCleansUp` | firmware/solo_sangeet/components/audio_player/audio_player.c:87-118 | every exit from the loop is a pending stop or a read of nothing. It leaves both flags false, the file closed and no reader. It queues EOF, without waiting, only at the end of the file |
| `AudioPlayer.FailedSendDropsChunk` | firmware/solo_sangeet/components/audio_player/audio_player.c:99-103 | a refused chunk is dropped: the buffer is unchanged and the file stays past the chunk |
| `AudioPlayer.ReadTakesNextBytes` | firmware/solo_sangeet/components/audio_player/audio_player.c:89 | each read holds 1 to 2048 bytes, exactly the next ones of the file |
| `AudioPlayer.StopEndsReader` | firmware/solo_sangeet/components/audio_player/audio_player.c:87-118 | a requested stop ends the reader within two of its steps |
| `AudioPlayer.StartRefusedWhileStopPending` | firmware/solo_sangeet/components/audio_player/audio_player.c:49-52 | a Play that arrives after a Pause, before the reader has seen the stop, is refused |
| `AudioPlayer.PauseThenPlayRestarts` | firmware/solo_sangeet/components/audio_player/audio_player.c:54-63 | Pause then Play, once the reader is gone, restarts the track from byte 44 |
| `AudioPlayer.SoloRunStreamsFile` | firmware/solo_sangeet/components/audio_player/audio_player.c:81-119 | a reader running alone streams the rest of the file into the buffer in order, all of it when it fits. It then queues EOF and cleans up, keeping the invariant |
| `AudioPlayer.TenThousandByteFile` | firmware/solo_sangeet/components/audio_player/audio_player.c:83-89 | an example of `Chunks`, not a further property: a 10000-byte file is read as four chunks of 2048 bytes and one of 1764 |
| `AudioPlayer.Player.constructor` | firmware/solo_sangeet/components/audio_player/audio_player.c:29-45 | nothing playing, no file, no reader, both buffers empty |
| `AudioPlayer.Player.Start` | firmware/solo_sangeet/components/audio_player/audio_player.c:47-69 | result and new state are those of `StartStep` for what `fopen` gives |
| `AudioPlayer.Player.Stop` | firmware/solo_sangeet/components/audio_player/audio_player.c:71-79 | the new state is that of `StopStep` |
| `AudioPlayer.Player.IsPlaying` | firmware/solo_sangeet/components/audio_player/audio_player.c:122-125 | returns `playing`, which under the invariant means a reader exists and a file is open |
| `AudioPlayer.Player.ReaderTask` | firmware/solo_sangeet/components/audio_player/audio_player.c:81-119 | the loop and its cleanup, run alone, end in exactly the state `SoloRun` describes |
| `AudioControl.Next` | firmware/solo_sangeet/components/audio_player/audio_player.c:137-179 | definition: the control state after a command; the lemmas below state its properties |
| `AudioControl.EffectOf` | firmware/solo_sangeet/components/audio_player/audio_player.c:137-179 | definition: which of start, stop and stop-and-reset a command calls in a state |
| `AudioControl.PlayLeadsToPlaying` | firmware/solo_sangeet/components/audio_player/audio_player.c:139-145 | Play from any state leads to Playing whatever `audio_player_start` returns, and calls it unless already Playing |
| `AudioControl.IdleNeverReentered` | firmware/solo_sangeet/components/audio_player/audio_player.c:129-179 | the next state is Idle exactly when the machine is in Idle and the command is not Play |
| `AudioControl.StartExactlyOnEnteringPlaying` | firmware/solo_sangeet/components/audio_player/audio_player.c:139-178 | `audio_player_start` is called exactly on a change into Playing |
| `AudioControl.StopExactlyOnLeavingPlaying` | firmware/solo_sangeet/components/audio_player/audio_player.c:147-169 | `audio_player_stop` is called exactly on leaving Playing, and the button is reset exactly on Eof while Playing; Stop while Playing is ignored |
| `AudioControl.SilentChangeOnlyPausedStop` | firmware/solo_sangeet/components/audio_player/audio_player.c:171-178 | the only state change without a call is Stop from Paused |
| `AudioControl.EofRacingPauseDesyncs` | firmware/solo_sangeet/components/audio_player/audio_player.c:159-164 | EOF handled before a pending Pause leaves the machine Stopped with the button showing PLAY and its flag set, so it takes a third click to play again |
| `AudioControl.Controller.constructor` | firmware/solo_sangeet/components/audio_player/audio_player.c:129 | the task starts in Idle |
| `AudioControl.Controller.HandleCommand` | firmware/solo_sangeet/components/audio_player/audio_player.c:135-179 | the new state is `Next`; the player changes by `StartStep`, `StopStep` or not at all as `EffectOf` says, and the button is reset only on Eof while Playing |
| `AudioControl.Controller.Step` | firmware/solo_sangeet/components/audio_player/audio_player.c:132-183 | the oldest queued command is removed and handled: the state becomes `Next`, and the player (with the command gone from its queue) changes by `StartStep`, `StopStep` or not at all as `EffectOf` says, with the button reset only on Eof while Playing; an empty queue changes nothing |
| `PlayerUi.Click` | firmware/solo_sangeet/components/audio_player/audio_player_ui.c:64-89 | a play click flips the flag, shows PAUSE exactly when it is now set, and sends PLAY if set and PAUSE if not; prev and next change nothing and send nothing |
| `PlayerUi.Reset` | firmware/solo_sangeet/components/audio_player/audio_player_ui.c:51-62 | the icon becomes PLAY and the flag is flipped, not cleared |
| `PlayerUi.TwoClicksRestore` | firmware/solo_sangeet/components/audio_player/audio_player_ui.c:68-80 | two play clicks restore a consistent view and send one PLAY and one PAUSE |
| `PlayerUi.ResetWhenClearDesyncs` | firmware/solo_sangeet/components/audio_player/audio_player_ui.c:51-53 | a reset while the flag is clear sets it under a PLAY icon, so the next click sends PAUSE |
| `PlayerUi.PlayerUi.constructor` | firmware/solo_sangeet/components/audio_player/audio_player_ui.c:18 | the flag starts clear and the icon shows PLAY |
| `PlayerUi.PlayerUi.PlayCb` | firmware/solo_sangeet/components/audio_player/audio_player_ui.c:35-41 | PLAY is offered to the queue with no wait |
| `PlayerUi.PlayerUi.PauseCb` | firmware/solo_sangeet/components/audio_player/audio_player_ui.c:43-49 | PAUSE is offered to the queue with no wait |
| `PlayerUi.PlayerUi.ResetPlayButton` | firmware/solo_sangeet/components/audio_player/audio_player_ui.c:51-62 | the view becomes `Reset` of the old one |
| `PlayerUi.PlayerUi.OnClick` | firmware/solo_sangeet/components/audio_player/audio_player_ui.c:64-89 | the view becomes that of `Click`; the queue is offered exactly the command `Click` names, or nothing |
| `TeardownRace.ClearFlags` | firmware/solo_sangeet/components/audio_player/audio_player.c:110-111 | definition: the first statements of the cleanup as written: `stop_requested` and `playing` cleared |
| `TeardownRace.CloseAndExit` | firmware/solo_sangeet/components/audio_player/audio_player.c:113-118 | definition: the rest of the cleanup: whatever `audio_fp` holds is closed and cleared and the task deleted |
| `TeardownRace.TeardownClosesNewFile` | firmware/solo_sangeet/components/audio_player/audio_player.c:106-118 | with the cleanup split as written, Pause, flags cleared, Play, file closed leaves the player playing with a live reader and no open file |

## Left out

- FreeRTOS is not modelled: task creation and deletion, priorities, `vTaskDelay`, blocking in `xQueueReceive`, and real preemption. Interleavings are explicit sequences of `AudioPlayer.Event`s instead.
- AudioCore.RingBuffer.Send: nothing drains the buffer during the 100 ms send timeout. Draining by the Bluetooth sink is a separate `EvConsume` event in the session model. The sink itself is not part of this model because its implementation is not in the repository.
- AudioPlayer.Player.ReaderTask: proved for a reader running alone. Interleaved runs are covered by `AudioPlayer.InvRun` over the step functions, not by the method.
- AudioPlayer.Teardown: the reader's cleanup is one atomic step in the main model. The three separate statements of the source are modelled in `TeardownRace`; see Findings.
- `fread` I/O errors and `fseek` failure are not modelled; a read returns the next bytes of the file or, at its end, none.
- SdCardFs.SdCard.ReadFile: on an empty file `fgets` leaves `line` uninitialised and the source then reads it. The model treats the buffer as an empty string.
- SdCardFs.ReadLineMeaning: stated for files without NUL characters. A NUL inside the first line cuts the logged text earlier, and `SdCardFs.SdCard.ReadFile` covers that case.
- `lv_obj_clear_state(btn_play, LV_STATE_CHECKED)` in `ui_reset_play_button`, widget construction, styles and the rest of the interface layer are not modelled: they change only what LVGL draws.
- Logging (`ESP_LOG*`, `log_mem`, `xRingbufferPrintInfo`) is left out as output with no effect on the state.
- SPI bus and device set-up, GPIO levels and the backlight are left out as driver configuration. So are `ili9341_init` and `ili9488_init`, which are fixed byte lists, and the DMA variant `ili9341_flush_spi_dma`. `spi_device_transmit` always succeeds, so the `assert(ret == ESP_OK)` checks are not modelled.
- The SD-card mount path, `sdmmc_card_print_info` and `s_example_write_file` are file-system plumbing outside the modelled helpers.
- ESP_ERROR_CHECK in `xpt2046_read_cmd` is not modelled: the exchange always succeeds.
- Ili9341.Driver.FlushSpi: requires that the C `int` arithmetic of the pixel count does not overflow, and that the graphics library's block holds that many pixels. The source assumes both.
- St7735 rotations: the enumerators are taken as 0..3 in the order of the switch. The resolution macros are constructor parameters because their header is not part of the attached sources.
- Ili9488 MADCTL command and flag macros are a `MadctlConfig` parameter for the same reason.
- The two `if` statements that clamp `w` and `h` in `ili9341_fill_rect_dma` are the single function `Ili9341.Clamp`, applied to each axis.
- Some loops and instruction groups of one source function are separate helper methods, so that each proof stays small: `FillDmaBuffer`, `TransmitFill`, `FillRectPixels`, `SwapInto`, `SendSwapped`, `LineBounds`, `NewLineBuffer`, `SendLineChunks`, `SendPixels`, `SendAxis`, `ReportEntry`, `PrintIndent`, `Fgets`, `StripNewline` and `ReadCString`. Each is cited with the lines it covers.

## Findings

| source | as written | input that shows it | evidently intended | confidence | as-written member | corrected member |
|---|---|---|---|---|---|---|
| firmware/solo_sangeet/components/st7735_driver/st7735_driver.c:121-127 | `st7735_fill_screen` sends column end 0x9F and row end 0x7F | any colour: the window decodes to 160 columns by 128 rows | column end 0x7F and row end 0x9F, as the line comments and `st7735_fill_screen_white` have | not executed; high | `St7735.FillScreenWindowTransposed` | `St7735.IntendedFillLog` |
| firmware/solo_sangeet/components/audio_player/audio_player.c:110-116 | the reader clears `stop_requested` and `playing` before it closes `audio_fp`, in separate statements | Pause, the reader clears the flags, the higher-priority control task handles Play (a new file and a second reader), then the first reader closes the new file | the cleanup as one step (or the file closed before `playing` is cleared), so a file is open exactly while playing | not executed; medium (needs the control task to run between the statements) | `TeardownRace.TeardownClosesNewFile` | `AudioPlayer.InvRun` |
