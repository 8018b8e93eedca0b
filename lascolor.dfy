/**
 * A model of liblas::Color, the RGB colour of a LAS point: three unsigned
 * 16-bit channel intensities that are read and written by name (GetRed,
 * SetRed, ...) or by index (operator[], 0 = red, 1 = green, 2 = blue).
 *
 * The pure part (datatype Rgb and the functions on it) is the specification;
 * the class Color is the object whose fields are updated in place, and its
 * members are proved against the pure part.
 */
module LasColor {

  /** Color::value_type, a boost::uint16_t. */
  newtype uint16 = x: int | 0 <= x < 0x1_0000

  /** std::size_t, the type of the subscript of operator[]. */
  newtype size_t = x: int | 0 <= x < 0x1_0000_0000_0000_0000

  /** The largest intensity a channel can hold. */
  const MaxIntensity: uint16 := 0xFFFF

  /** The three image channels of a colour, in subscript order. */
  datatype Channel = Red | Green | Blue

  /** The one failure of the component: std::out_of_range carrying its message. */
  datatype Error = OutOfRange(message: string)

  /** What throw_out_of_range() raises. */
  const SubscriptOutOfRange: Error := OutOfRange("subscript out of range")

  /** A subscript read: the channel value, or the error that replaces the throw. */
  datatype Result<T> = Ok(value: T) | Err(error: Error)

  /** A subscript write: it either happened or failed with an error. */
  datatype Outcome = Pass | Fail(error: Error)

  // ---------------------------------------------------------------------------
  // The value of a colour
  // ---------------------------------------------------------------------------

  /** The state of a Color: the fields m_red, m_green and m_blue. */
  datatype Rgb = Rgb(red: uint16, green: uint16, blue: uint16)

  /** The colour a default-constructed Color holds: black. */
  const Black: Rgb := Rgb(0, 0, 0)

  /** The intensity of channel `ch` of `c`. */
  function Get(c: Rgb, ch: Channel): uint16
  {
    match ch
    case Red => c.red
    case Green => c.green
    case Blue => c.blue
  }

  /** `c` with channel `ch` overwritten by `v`: that channel reads `v`, the others are kept. */
  function With(c: Rgb, ch: Channel, v: uint16): (d: Rgb)
    ensures Get(d, ch) == v
    ensures forall other :: other != ch ==> Get(d, other) == Get(c, other)
  {
    match ch
    case Red => c.(red := v)
    case Green => c.(green := v)
    case Blue => c.(blue := v)
  }

  /** The subscript that addresses channel `ch`. */
  function IndexOf(ch: Channel): (n: size_t)
    ensures n <= 2
    ensures ChannelAt(n) == Ok(ch)
  {
    match ch
    case Red => 0
    case Green => 1
    case Blue => 2
  }

  /**
   * The channel subscript `n` addresses, as both overloads of operator[]
   * resolve it: 0, 1 and 2 are red, green and blue, anything else is out of range.
   */
  function ChannelAt(n: size_t): (r: Result<Channel>)
    ensures r.Ok? <==> n <= 2
    ensures r.Err? ==> r.error == SubscriptOutOfRange
  {
    if n == 0 then Ok(Red)
    else if n == 1 then Ok(Green)
    else if n == 2 then Ok(Blue)
    else Err(SubscriptOutOfRange)
  }

  /** Reading `c[n]`. */
  function ReadAt(c: Rgb, n: size_t): (r: Result<uint16>)
    ensures r.Ok? <==> n <= 2
    ensures r.Err? ==> r.error == SubscriptOutOfRange
    ensures forall ch :: IndexOf(ch) == n ==> r == Ok(Get(c, ch))
  {
    match ChannelAt(n)
    case Ok(ch) => Ok(Get(c, ch))
    case Err(e) => Err(e)
  }

  /** Writing `c[n] = v`: the new colour, or the error when `n` is out of range. */
  function WriteAt(c: Rgb, n: size_t, v: uint16): (r: Result<Rgb>)
    ensures r.Ok? <==> n <= 2
    ensures r.Err? ==> r.error == SubscriptOutOfRange
    ensures r.Ok? ==> ReadAt(r.value, n) == Ok(v)
    ensures r.Ok? ==> forall m :: m != n ==> ReadAt(r.value, m) == ReadAt(c, m)
  {
    match ChannelAt(n)
    case Ok(ch) => Ok(With(c, ch, v))
    case Err(e) => Err(e)
  }

  // ---------------------------------------------------------------------------
  // Properties of the value model
  // ---------------------------------------------------------------------------

  /** Subscripts 0, 1 and 2 and the three channels are in one-to-one correspondence. */
  lemma SubscriptsAreChannels(n: size_t)
    requires n <= 2
    ensures ChannelAt(n).Ok? && IndexOf(ChannelAt(n).value) == n
  {
  }

  /** A subscript write is the named setter of the channel the subscript addresses. */
  lemma WriteAtIsSetter(c: Rgb, ch: Channel, v: uint16)
    ensures WriteAt(c, IndexOf(ch), v) == Ok(With(c, ch, v))
  {
  }

  /** A subscript read is the named getter of the channel the subscript addresses. */
  lemma ReadAtIsGetter(c: Rgb, ch: Channel)
    ensures ReadAt(c, IndexOf(ch)) == Ok(Get(c, ch))
  {
  }

  /** Writing back the value just read leaves the colour as it was. */
  lemma WriteWhatWasRead(c: Rgb, n: size_t)
    requires n <= 2
    ensures WriteAt(c, n, ReadAt(c, n).value) == Ok(c)
  {
  }

  /** Of two writes to the same subscript, only the last one is visible. */
  lemma SecondWriteWins(c: Rgb, n: size_t, v: uint16, w: uint16)
    requires n <= 2
    ensures WriteAt(WriteAt(c, n, v).value, n, w) == WriteAt(c, n, w)
  {
  }

  /** Two colours are the same value exactly when their three channels agree. */
  lemma EqualIffChannelsEqual(a: Rgb, b: Rgb)
    ensures a == b <==> forall ch :: Get(a, ch) == Get(b, ch)
  {
    if forall ch :: Get(a, ch) == Get(b, ch) {
      assert Get(a, Red) == Get(b, Red);
      assert Get(a, Green) == Get(b, Green);
      assert Get(a, Blue) == Get(b, Blue);
    }
  }

  /**
   * The subscript view covers the whole state: two colours are the same value
   * exactly when they read alike at subscripts 0, 1 and 2.
   */
  lemma EqualIffReadsEqual(a: Rgb, b: Rgb)
    ensures a == b <==> forall n: size_t :: n <= 2 ==> ReadAt(a, n) == ReadAt(b, n)
  {
    if forall n: size_t :: n <= 2 ==> ReadAt(a, n) == ReadAt(b, n) {
      forall ch
        ensures Get(a, ch) == Get(b, ch)
      {
        assert ReadAt(a, IndexOf(ch)) == ReadAt(b, IndexOf(ch));
      }
      EqualIffChannelsEqual(a, b);
    }
  }

  // ---------------------------------------------------------------------------
  // The object
  // ---------------------------------------------------------------------------

  /** liblas::Color: three channel fields that the setters and operator[] overwrite in place. */
  class Color {
    var red: uint16
    var green: uint16
    var blue: uint16

    /** The colour this object holds. */
    function Value(): Rgb
      reads this
    {
      Rgb(red, green, blue)
    }

    /** The default constructor: black, RGB {0, 0, 0}. */
    constructor ()
      ensures Value() == Black
    {
      red, green, blue := 0, 0, 0;
    }

    /** The user-defined constructor: the given channel values, stored as they are. */
    constructor Init(red: uint16, green: uint16, blue: uint16)
      ensures GetRed() == red && GetGreen() == green && GetBlue() == blue
    {
      this.red, this.green, this.blue := red, green, blue;
    }

    function GetRed(): (v: uint16)
      reads this
      ensures v == Get(Value(), Red)
    {
      red
    }

    method SetRed(value: uint16)
      modifies this
      ensures Value() == With(old(Value()), Red, value)
      ensures GetRed() == value && GetGreen() == old(GetGreen()) && GetBlue() == old(GetBlue())
    {
      red := value;
    }

    function GetBlue(): (v: uint16)
      reads this
      ensures v == Get(Value(), Blue)
    {
      blue
    }

    method SetBlue(value: uint16)
      modifies this
      ensures Value() == With(old(Value()), Blue, value)
      ensures GetBlue() == value && GetRed() == old(GetRed()) && GetGreen() == old(GetGreen())
    {
      blue := value;
    }

    function GetGreen(): (v: uint16)
      reads this
      ensures v == Get(Value(), Green)
    {
      green
    }

    method SetGreen(value: uint16)
      modifies this
      ensures Value() == With(old(Value()), Green, value)
      ensures GetGreen() == value && GetRed() == old(GetRed()) && GetBlue() == old(GetBlue())
    {
      green := value;
    }

    /** The const operator[]: reads channel `n`, or fails when `n` is above 2. */
    function At(n: size_t): (r: Result<uint16>)
      reads this
      ensures r == ReadAt(Value(), n)
    {
      if n == 0 then Ok(red)
      else if n == 1 then Ok(green)
      else if n == 2 then Ok(blue)
      else Err(SubscriptOutOfRange)
    }

    /** The mutable operator[] used to read: the same channel, or the same failure, as the const one. */
    method Subscript(n: size_t) returns (r: Result<uint16>)
      ensures r == At(n)
    {
      if n == 0 {
        return Ok(red);
      }
      if n == 1 {
        return Ok(green);
      }
      if n == 2 {
        return Ok(blue);
      }
      return Err(SubscriptOutOfRange);
    }

    /**
     * The mutable operator[] used to write, `c[n] = value`: overwrites the
     * channel `n` addresses, or fails when `n` is above 2 and changes nothing.
     */
    method SetAt(n: size_t, value: uint16) returns (r: Outcome)
      modifies this
      ensures r.Pass? <==> n <= 2
      ensures r.Pass? ==> WriteAt(old(Value()), n, value) == Ok(Value())
      ensures r.Fail? ==> r.error == SubscriptOutOfRange && Value() == old(Value())
    {
      if n == 0 {
        red := value;
        return Pass;
      }
      if n == 1 {
        green := value;
        return Pass;
      }
      if n == 2 {
        blue := value;
        return Pass;
      }
      return Fail(SubscriptOutOfRange);
    }
  }

  /** A client: what callers can conclude from the contracts above alone. */
  method Scenario()
  {
    var c := new Color.Init(255, 128, 0);
    assert c.GetRed() == 255 && c.GetGreen() == 128 && c.GetBlue() == 0;
    c.SetGreen(64);
    assert c.Value() == Rgb(255, 64, 0);
    var ok := c.SetAt(2, MaxIntensity);
    assert ok == Pass && c.At(2) == Ok(MaxIntensity);
    var bad := c.SetAt(3, 0);
    assert bad == Fail(SubscriptOutOfRange) && c.Value() == Rgb(255, 64, MaxIntensity);
    var d := new Color();
    assert d.At(0) == d.At(1) == d.At(2) == Ok(0);
  }
}
