/** What a setting is (a parameter, or one colour component of it, in one context) and the
    TR-181 key under which it is stored. */
module Keys {
  import opened Text
  import opened Names

  /** tvConfigContext_t: HAL enumerators for picture mode, video format and video source. */
  datatype Context = Context(mode: int, format: int, source: int)

  /** A context all of whose enumerators have names. */
  predicate Named(n: Tables, c: Context) {
    c.mode in n.modes.codes && c.format in n.formats.codes && c.source in n.sources.codes
  }

  function ModeName(n: Tables, c: Context): string requires n.Good() { n.modes.Name(Byte(c.mode)) }
  function FormatName(n: Tables, c: Context): string requires n.Good() { n.formats.Name(Byte(c.format)) }
  function SourceName(n: Tables, c: Context): string requires n.Good() { n.sources.Name(Byte(c.source)) }

  /** The parameters stored as one value per context. */
  datatype Param =
    | Backlight | Brightness | Contrast | Sharpness | Saturation | Hue | ColorTemp | DimmingMode
    | ZoomMode | LowLatencyState | PrecisionDetail | LocalContrastEnhancement
    | MPEGNoiseReduction | DigitalNoiseReduction | AISuperResolution | MEMC | BacklightMode
    | SDRGamma | DimmingLevel
  {
    function Name(): string {
      match this
      case Backlight => "Backlight"
      case Brightness => "Brightness"
      case Contrast => "Contrast"
      case Sharpness => "Sharpness"
      case Saturation => "Saturation"
      case Hue => "Hue"
      case ColorTemp => "ColorTemp"
      case DimmingMode => "DimmingMode"
      case ZoomMode => "ZoomMode"
      case LowLatencyState => "LowLatencyState"
      case PrecisionDetail => "PrecisionDetail"
      case LocalContrastEnhancement => "LocalContrastEnhancement"
      case MPEGNoiseReduction => "MPEGNoiseReduction"
      case DigitalNoiseReduction => "DigitalNoiseReduction"
      case AISuperResolution => "AISuperResolution"
      case MEMC => "MEMC"
      case BacklightMode => "BacklightMode"
      case SDRGamma => "SDRGamma"
      case DimmingLevel => "DimmingLevel"
    }
  }

  datatype Color = Red | Green | Blue | Yellow | Cyan | Magenta {
    function Name(): string {
      match this
      case Red => "Red"
      case Green => "Green"
      case Blue => "Blue"
      case Yellow => "Yellow"
      case Cyan => "Cyan"
      case Magenta => "Magenta"
    }
  }

  datatype Component = HueComponent | SaturationComponent | LumaComponent {
    function Name(): string {
      match this
      case HueComponent => "Hue"
      case SaturationComponent => "Saturation"
      case LumaComponent => "Luma"
    }
  }

  datatype Temperature = Standard | Warm | Cold | UserDefined {
    function Name(): string {
      match this
      case Standard => "Standard"
      case Warm => "Warm"
      case Cold => "Cold"
      case UserDefined => "UserDefined"
    }
  }

  datatype Control = Gain | Offset {
    function Name(): string {
      match this
      case Gain => "Gain"
      case Offset => "Offset"
    }
  }

  /** One value that is stored per context. */
  datatype Target =
    | Whole(param: Param)
    | Cms(color: Color, component: Component)
    | WhiteBalance(temperature: Temperature, tint: Color, control: Control)

  const GENERIC_PREFIX: string := "Device.DeviceInfo.X_RDKCENTRAL-COM_RFC.AVOutput."
  const PICTURE_MODE_PREFIX: string := "Device.DeviceInfo.X_RDKCENTRAL-COM_RFC.AVOutputV2.Source"

  /** A tagged part of a key, as in "Source.HDMI1." */
  function Segment(tag: string, value: string, rest: string): string {
    tag + "." + value + "." + rest
  }

  function TargetText(t: Target): string {
    match t
    case Whole(p) => p.Name()
    case Cms(color, component) =>
      Segment("Color", color.Name(), Segment("Component", component.Name(), "CMS"))
    case WhiteBalance(temperature, tint, control) =>
      Segment("ColorTemperature", temperature.Name(),
              Segment("Color", tint.Name(), Segment("Control", control.Name(), "WhiteBalance")))
  }

  /** generateStorageIdentifierV2 and generateStorageIdentifierWBV2. */
  function StorageKey(n: Tables, t: Target, c: Context): string
    requires n.Good()
  {
    GENERIC_PREFIX +
    Segment("Source", SourceName(n, c), Segment("PicMode", ModeName(n, c), Segment("Format", FormatName(n, c), TargetText(t))))
  }

  /** The key of the picture mode chosen for a source and a format. */
  function PictureModeKey(source: string, format: string): string {
    PICTURE_MODE_PREFIX + ("." + Segment(source, "Format", format + "." + "PictureModeString"))
  }

  // ---------------------------------------------------------------- keys as lists of fields

  function TargetFields(t: Target): seq<string> {
    match t
    case Whole(p) => [p.Name()]
    case Cms(color, component) => ["Color", color.Name()] + (["Component", component.Name()] + ["CMS"])
    case WhiteBalance(temperature, tint, control) =>
      ["ColorTemperature", temperature.Name()]
      + (["Color", tint.Name()] + (["Control", control.Name()] + ["WhiteBalance"]))
  }

  function ContextFields(n: Tables, c: Context): seq<string>
    requires n.Good()
  {
    ["Source", SourceName(n, c)] + (["PicMode", ModeName(n, c)] + ["Format", FormatName(n, c)])
  }

  function KeyFields(n: Tables, t: Target, c: Context): seq<string>
    requires n.Good()
  {
    ContextFields(n, c) + TargetFields(t)
  }

  lemma Regroup(a: string, dot: string, b: string, rest: string)
    ensures a + dot + b + dot + rest == a + dot + (b + dot + rest)
  {
  }

  lemma SegmentIsJoin(tag: string, value: string, fields: seq<string>)
    requires |fields| > 0
    ensures Segment(tag, value, Join(fields, '.')) == Join([tag, value] + fields, '.')
  {
    var all := [tag, value] + fields;
    assert all[1..] == [value] + fields;
    assert all[1..][1..] == fields;
    Regroup(tag, ".", value, Join(fields, '.'));
  }

  lemma PairIsJoin(a: string, b: string)
    ensures a + "." + b == Join([a, b], '.')
  {
    assert [a, b][1..] == [b];
  }

  lemma TargetIsJoin(t: Target)
    ensures TargetText(t) == Join(TargetFields(t), '.')
  {
    match t
    case Whole(p) =>
    case Cms(color, component) =>
      SegmentIsJoin("Component", component.Name(), ["CMS"]);
      SegmentIsJoin("Color", color.Name(), ["Component", component.Name()] + ["CMS"]);
    case WhiteBalance(temperature, tint, control) =>
      SegmentIsJoin("Control", control.Name(), ["WhiteBalance"]);
      SegmentIsJoin("Color", tint.Name(), ["Control", control.Name()] + ["WhiteBalance"]);
      SegmentIsJoin("ColorTemperature", temperature.Name(),
                    ["Color", tint.Name()] + (["Control", control.Name()] + ["WhiteBalance"]));
  }

  lemma ContextIsJoin(source: string, mode: string, format: string, tail: seq<string>)
    requires |tail| > 0
    ensures Segment("Source", source, Segment("PicMode", mode, Segment("Format", format, Join(tail, '.'))))
            == Join(["Source", source] + (["PicMode", mode] + ["Format", format]) + tail, '.')
  {
    var f := ["Format", format] + tail;
    SegmentIsJoin("Format", format, tail);
    SegmentIsJoin("PicMode", mode, f);
    SegmentIsJoin("Source", source, ["PicMode", mode] + f);
    assert ["Source", source] + (["PicMode", mode] + ["Format", format]) + tail
        == ["Source", source] + (["PicMode", mode] + f);
  }

  lemma KeyIsJoin(n: Tables, t: Target, c: Context)
    requires n.Good()
    ensures StorageKey(n, t, c) == GENERIC_PREFIX + Join(KeyFields(n, t, c), '.')
  {
    TargetIsJoin(t);
    ContextIsJoin(SourceName(n, c), ModeName(n, c), FormatName(n, c), TargetFields(t));
  }

  lemma NameIsDotFree(t: Table, code: int)
    requires t.Good()
    ensures '.' !in t.Name(code)
  {
    if code in t.codes { t.NameThenCode(code); }
  }

  lemma ShortNameIsDotFree(p: Param)
    requires |p.Name()| <= 10
    ensures '.' !in p.Name()
  {
  }

  lemma MiddleNameIsDotFree(p: Param)
    requires 10 < |p.Name()| <= 15
    ensures '.' !in p.Name()
  {
  }

  lemma LongNameIsDotFree(p: Param)
    requires |p.Name()| > 15
    ensures '.' !in p.Name()
  {
  }

  lemma ParamNameIsDotFree(p: Param)
    ensures '.' !in p.Name()
  {
    if |p.Name()| <= 10 { ShortNameIsDotFree(p); } else if |p.Name()| <= 15 { MiddleNameIsDotFree(p); } else { LongNameIsDotFree(p); }
  }

  lemma PartNamesAreDotFree(c: Color, k: Component, t: Temperature, w: Control)
    ensures '.' !in c.Name() && '.' !in k.Name() && '.' !in t.Name() && '.' !in w.Name()
  {
  }

  lemma TargetFieldsAreDotFree(t: Target)
    ensures Free(TargetFields(t), '.')
  {
    match t
    case Whole(p) => ParamNameIsDotFree(p);
    case Cms(color, component) => PartNamesAreDotFree(color, component, Standard, Gain);
    case WhiteBalance(temperature, tint, control) => PartNamesAreDotFree(tint, HueComponent, temperature, control);
  }

  lemma ParamNameInjective(p: Param, q: Param)
    requires p.Name() == q.Name()
    ensures p == q
  {
    assert |p.Name()| == |q.Name()| && p.Name()[0] == q.Name()[0];
  }

  lemma TargetFieldsInjective(t: Target, u: Target)
    requires TargetFields(t) == TargetFields(u)
    ensures t == u
  {
    var f, g := TargetFields(t), TargetFields(u);
    match t
    case Whole(p) =>
      assert f[0] == g[0];
      ParamNameInjective(p, u.param);
    case Cms(color, component) =>
      assert |f[1]| == |g[1]| && f[1][0] == g[1][0];
      assert f[3][0] == g[3][0];
    case WhiteBalance(temperature, tint, control) =>
      assert f[1][0] == g[1][0];
      assert |f[3]| == |g[3]| && f[3][0] == g[3][0];
      assert f[5][0] == g[5][0];
  }

  /** Storage keys are injective: settings that differ in the parameter, the colour, the component
      or control, the colour temperature or any coordinate of the context have different keys. */
  lemma StorageKeyInjective(n: Tables, t: Target, c: Context, u: Target, d: Context)
    requires n.Good() && Named(n, c) && Named(n, d)
    ensures StorageKey(n, t, c) == StorageKey(n, u, d) ==> t == u && c == d
  {
    if StorageKey(n, t, c) == StorageKey(n, u, d) {
      KeyIsJoin(n, t, c);
      KeyIsJoin(n, u, d);
      assert Join(KeyFields(n, t, c), '.') == StorageKey(n, t, c)[|GENERIC_PREFIX|..];
      assert Join(KeyFields(n, u, d), '.') == StorageKey(n, u, d)[|GENERIC_PREFIX|..];
      KeyFieldsAreDotFree(n, t, c);
      KeyFieldsAreDotFree(n, u, d);
      JoinInjective(KeyFields(n, t, c), KeyFields(n, u, d), '.');
      KeyFieldsInjective(n, t, c, u, d);
    }
  }

  lemma KeyFieldsInjective(n: Tables, t: Target, c: Context, u: Target, d: Context)
    requires n.Good() && Named(n, c) && Named(n, d)
    ensures KeyFields(n, t, c) == KeyFields(n, u, d) ==> t == u && c == d
  {
    if KeyFields(n, t, c) == KeyFields(n, u, d) {
      SameCut(ContextFields(n, c), TargetFields(t), ContextFields(n, d), TargetFields(u));
      ContextFieldsInjective(n, c, d);
      TargetFieldsInjective(t, u);
    }
  }

  lemma SameCut(a: seq<string>, x: seq<string>, b: seq<string>, y: seq<string>)
    requires |a| == |b| && a + x == b + y
    ensures a == b && x == y
  {
    assert a == (a + x)[..|a|] && x == (a + x)[|a|..];
    assert b == (b + y)[..|b|] && y == (b + y)[|b|..];
  }

  lemma ContextFieldsInjective(n: Tables, c: Context, d: Context)
    requires n.Good() && Named(n, c) && Named(n, d)
    requires ContextFields(n, c) == ContextFields(n, d)
    ensures c == d
  {
    var f, g := ContextFields(n, c), ContextFields(n, d);
    assert f[1] == g[1] && f[3] == g[3] && f[5] == g[5];
    n.sources.NameInjective(c.source, d.source);
    n.modes.NameInjective(c.mode, d.mode);
    n.formats.NameInjective(c.format, d.format);
  }

  lemma KeyFieldsAreDotFree(n: Tables, t: Target, c: Context)
    requires n.Good()
    ensures Free(KeyFields(n, t, c), '.')
  {
    TargetFieldsAreDotFree(t);
    NameIsDotFree(n.sources, Byte(c.source));
    NameIsDotFree(n.modes, Byte(c.mode));
    NameIsDotFree(n.formats, Byte(c.format));
  }

  /** Picture-mode keys are injective in the source and the format. */
  lemma PictureModeKeyInjective(s: string, f: string, s': string, f': string)
    requires '.' !in s && '.' !in f && '.' !in s' && '.' !in f'
    requires PictureModeKey(s, f) == PictureModeKey(s', f')
    ensures s == s' && f == f'
  {
    var a, b := [s, "Format"] + [f, "PictureModeString"], [s', "Format"] + [f', "PictureModeString"];
    PairIsJoin(f, "PictureModeString");
    PairIsJoin(f', "PictureModeString");
    SegmentIsJoin(s, "Format", [f, "PictureModeString"]);
    SegmentIsJoin(s', "Format", [f', "PictureModeString"]);
    var k := |PICTURE_MODE_PREFIX|;
    assert PictureModeKey(s, f)[k..] == "." + Join(a, '.');
    assert PictureModeKey(s', f')[k..] == "." + Join(b, '.');
    assert ("." + Join(a, '.'))[1..] == Join(a, '.') && ("." + Join(b, '.'))[1..] == Join(b, '.');
    JoinInjective(a, b, '.');
    assert a[0] == b[0] && a[2] == b[2];
  }

  /** A picture-mode key never equals the key of any other setting. */
  lemma PictureModeKeyIsSeparate(n: Tables, t: Target, c: Context, s: string, f: string)
    requires n.Good()
    ensures StorageKey(n, t, c) != PictureModeKey(s, f)
  {
    var k := |GENERIC_PREFIX| - 1;
    assert StorageKey(n, t, c)[k] == GENERIC_PREFIX[k] == '.';
    assert PictureModeKey(s, f)[k] == PICTURE_MODE_PREFIX[k] == 'V';
  }

  // ---------------------------------------------------------------- the keys in full

  /** The names of the parameters, and of colours, components, colour temperatures and controls. */
  lemma LevelNames()
    ensures Backlight.Name() == "Backlight" && Brightness.Name() == "Brightness" && Contrast.Name() == "Contrast"
    ensures Sharpness.Name() == "Sharpness" && Saturation.Name() == "Saturation" && Hue.Name() == "Hue" && MEMC.Name() == "MEMC"
  {
  }

  lemma ModeNames()
    ensures ColorTemp.Name() == "ColorTemp" && DimmingMode.Name() == "DimmingMode" && ZoomMode.Name() == "ZoomMode"
    ensures BacklightMode.Name() == "BacklightMode" && SDRGamma.Name() == "SDRGamma" && DimmingLevel.Name() == "DimmingLevel"
  {
  }

  lemma EnhancementNames()
    ensures LowLatencyState.Name() == "LowLatencyState" && PrecisionDetail.Name() == "PrecisionDetail"
    ensures LocalContrastEnhancement.Name() == "LocalContrastEnhancement" && AISuperResolution.Name() == "AISuperResolution"
    ensures MPEGNoiseReduction.Name() == "MPEGNoiseReduction" && DigitalNoiseReduction.Name() == "DigitalNoiseReduction"
  {
  }

  lemma PartNames()
    ensures Red.Name() == "Red" && Green.Name() == "Green" && Blue.Name() == "Blue"
    ensures Yellow.Name() == "Yellow" && Cyan.Name() == "Cyan" && Magenta.Name() == "Magenta"
    ensures HueComponent.Name() == "Hue" && SaturationComponent.Name() == "Saturation" && LumaComponent.Name() == "Luma"
    ensures Standard.Name() == "Standard" && Warm.Name() == "Warm" && Cold.Name() == "Cold" && UserDefined.Name() == "UserDefined"
    ensures Gain.Name() == "Gain" && Offset.Name() == "Offset"
  {
  }

  lemma TargetFieldsInFull(t: Target)
    ensures TargetFields(t)
            == match t
               case Whole(p) => [p.Name()]
               case Cms(color, component) => ["Color", color.Name(), "Component", component.Name(), "CMS"]
               case WhiteBalance(temperature, tint, control) =>
                 ["ColorTemperature", temperature.Name(), "Color", tint.Name(), "Control", control.Name(), "WhiteBalance"]
  {
  }

  lemma ContextFieldsInFull(source: string, mode: string, format: string)
    ensures ["Source", source] + (["PicMode", mode] + ["Format", format]) == ["Source", source, "PicMode", mode, "Format", format]
  {
  }

  /** The key of a setting in a named context, field by field. */
  lemma KeyInFull(n: Tables, t: Target, c: Context)
    requires n.Good() && Named(n, c)
    ensures
      var tail := match t
                  case Whole(p) => [p.Name()]
                  case Cms(color, component) => ["Color", color.Name(), "Component", component.Name(), "CMS"]
                  case WhiteBalance(temperature, tint, control) =>
                    ["ColorTemperature", temperature.Name(), "Color", tint.Name(), "Control", control.Name(), "WhiteBalance"];
      StorageKey(n, t, c)
      == "Device.DeviceInfo.X_RDKCENTRAL-COM_RFC.AVOutput."
         + Join(["Source", n.sources.Name(c.source), "PicMode", n.modes.Name(c.mode), "Format", n.formats.Name(c.format)] + tail, '.')
  {
    var i, j, k := IndexOf(n.modes.codes, c.mode), IndexOf(n.formats.codes, c.format), IndexOf(n.sources.codes, c.source);
    assert IsByte(n.modes.codes[i]) && IsByte(n.formats.codes[j]) && IsByte(n.sources.codes[k]);
    KeyIsJoin(n, t, c);
    TargetFieldsInFull(t);
    ContextFieldsInFull(n.sources.Name(c.source), n.modes.Name(c.mode), n.formats.Name(c.format));
  }

  /** The key of a picture mode, field by field. */
  lemma PictureModeKeyInFull(source: string, format: string)
    ensures PictureModeKey(source, format)
            == "Device.DeviceInfo.X_RDKCENTRAL-COM_RFC.AVOutputV2.Source"
               + ("." + Join([source, "Format", format, "PictureModeString"], '.'))
  {
    PairIsJoin(format, "PictureModeString");
    SegmentIsJoin(source, "Format", [format, "PictureModeString"]);
    assert [source, "Format"] + [format, "PictureModeString"] == [source, "Format", format, "PictureModeString"];
  }
}
