# libLAS `Color` in Dafny

This project models `liblas::Color` from `include/liblas/lascolor.hpp`. `Color` is the RGB colour of a LAS point. It holds three unsigned 16-bit channel intensities: red, green and blue. Callers read and write them by name (`GetRed`, `SetRed`, …). They can also use a subscript: `operator[]` with 0 for red, 1 for green and 2 for blue. Any other subscript throws `std::out_of_range("subscript out of range")`.

Everything is in `lascolor.dfy`, module `LasColor`:

- `uint16` is `Color::value_type` (`boost::uint16_t`): a newtype over `0..65535`. The type alone guarantees that every channel stays in that range, and a setter stores its argument as it is.
- `size_t` is the subscript type `std::size_t`, a newtype over `0..2^64-1`.
- The exception becomes the value `SubscriptOutOfRange = OutOfRange("subscript out of range")`. Reads report it through `Result<T>` and writes through `Outcome`.
- The pure datatype `Rgb` holds the state of a colour, and the functions on it serve as the specification:
  - `Get` and `With` give named access.
  - `ChannelAt` and `IndexOf` give the subscript-to-channel mapping.
  - `ReadAt` and `WriteAt` give subscript access.
- The class `Color` has the three fields the C++ methods overwrite in place:
  - The getters and the const `operator[]` (`At`) are functions that only read `this`.
  - The setters and the writing use of the mutable `operator[]` (`SetAt`) are methods that modify `this`.
  - The reading use of the mutable `operator[]` is the method `Subscript`.
  - Every member is specified against `Value()`, the `Rgb` the object holds.
  - The two uses of the C++ reference that the mutable `operator[]` returns become `Subscript` and `SetAt`. Each has the same failure condition as the reference.

## Model

| member | source | states |
|---|---|---|
| `LasColor.With` | include/liblas/lascolor.hpp:127-150 | overwriting a channel makes it read the new value and leaves the other two channels as they were |
| `LasColor.IndexOf` | include/liblas/lascolor.hpp:152-168 | every channel has a subscript of at most 2, and that subscript resolves back to the channel |
| `LasColor.ChannelAt` | include/liblas/lascolor.hpp:99-107 | a subscript resolves to a channel exactly when it is at most 2; otherwise it fails with out-of-range "subscript out of range" |
| `LasColor.ReadAt` | include/liblas/lascolor.hpp:161-168 | a subscript read succeeds exactly for subscripts 0..2 and returns the channel that subscript addresses; any larger subscript gives the out-of-range error and no channel |
| `LasColor.WriteAt` | include/liblas/lascolor.hpp:152-159 | a subscript write succeeds exactly for subscripts 0..2; afterwards that subscript reads the written value and every other subscript reads as before; any larger subscript gives the out-of-range error |
| `LasColor.SubscriptsAreChannels` | include/liblas/lascolor.hpp:154-156 | subscripts 0, 1 and 2 are in one-to-one correspondence with the three channels |
| `LasColor.WriteAtIsSetter` | include/liblas/lascolor.hpp:152-159 | writing through the subscript of a channel is the same as calling that channel's named setter |
| `LasColor.ReadAtIsGetter` | include/liblas/lascolor.hpp:161-168 | reading through the subscript of a channel is the same as calling that channel's named getter |
| `LasColor.WriteWhatWasRead` | include/liblas/lascolor.hpp:152-159 | writing back the value just read at a valid subscript leaves the colour unchanged |
| `LasColor.SecondWriteWins` | include/liblas/lascolor.hpp:152-159 | of two writes to the same valid subscript, only the last is visible |
| `LasColor.EqualIffChannelsEqual` | include/liblas/lascolor.hpp:111-113 | two colours are the same value exactly when all three channels are pairwise equal |
| `LasColor.EqualIffReadsEqual` | include/liblas/lascolor.hpp:152-168 | two colours are the same value exactly when they read alike at subscripts 0, 1 and 2, so the subscript view exposes the whole state |
| `LasColor.Color.constructor` | include/liblas/lascolor.hpp:62-64 | a default-constructed colour is black: red = green = blue = 0 |
| `LasColor.Color.Init` | include/liblas/lascolor.hpp:66-70 | the three-argument constructor stores its arguments verbatim: `GetRed() == red`, `GetGreen() == green`, `GetBlue() == blue` |
| `LasColor.Color.GetRed` | include/liblas/lascolor.hpp:122-125 | returns the red channel of the colour the object holds; it only reads the object |
| `LasColor.Color.SetRed` | include/liblas/lascolor.hpp:127-130 | afterwards red is the given value and green and blue are unchanged |
| `LasColor.Color.GetBlue` | include/liblas/lascolor.hpp:132-135 | returns the blue channel; it only reads the object |
| `LasColor.Color.SetBlue` | include/liblas/lascolor.hpp:137-140 | afterwards blue is the given value and red and green are unchanged |
| `LasColor.Color.GetGreen` | include/liblas/lascolor.hpp:142-145 | returns the green channel; it only reads the object |
| `LasColor.Color.SetGreen` | include/liblas/lascolor.hpp:147-150 | afterwards green is the given value and red and blue are unchanged |
| `LasColor.Color.At` | include/liblas/lascolor.hpp:161-168 | the const `operator[]` agrees with `ReadAt` on the colour the object holds: 0, 1 and 2 give red, green and blue, and any other subscript gives the out-of-range error |
| `LasColor.Color.Subscript` | include/liblas/lascolor.hpp:152-159 | the mutable `operator[]`, used to read, returns exactly what the const overload returns, including the out-of-range failure |
| `LasColor.Color.SetAt` | include/liblas/lascolor.hpp:152-159 | the mutable `operator[]`, used to write, succeeds exactly for subscripts 0..2 and then changes the object as `WriteAt` does, which is the matching channel only; a larger subscript fails with "subscript out of range" and leaves all three channels untouched |

## Left out

- The bodies of the default constructor, the copy constructor, copy assignment and `operator==` (lascolor.hpp lines 64, 73, 76, 79). The header only declares them.
  - The default constructor is modelled from its doc comment only: black, RGB {0, 0, 0}.
  - Copying and equality are not modelled as members. A colour's value is the datatype `Rgb`, and equality is Dafny's structural equality on it (`EqualIffChannelsEqual`, `EqualIffReadsEqual`). Because an `Rgb` is a value, changing a copy can never change the original. No member states this separately.
- C++ reference semantics of the mutable `operator[]`: a caller can keep the returned reference and alias a field through it. The model replaces the reference with its two uses, `Subscript` (read) and `SetAt` (write). These carry the same failure condition.
- The exception machinery: throwing, unwinding and the `std::out_of_range` type. An error value stands in for the throw, and it carries the same message.
- The included headers `liblas/detail/fwd.hpp`, `liblas/detail/utility.hpp` and Boost are not part of this model.
- How a `Color` is packed into a LAS point record. Other code does that, and it is not part of this model.
