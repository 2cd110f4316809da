/** The Kivy QR generator (`QRWidget`): colours as `#rrggbb` strings, the
    URL check, the settings both preview and save pass to the encoder, the
    generated file name and the path the success popup hands to "Open File".
    Colour channels are bytes; the encoder, the clock and the random suffix
    are parameters. */
module QrGui {
  import opened Wrappers
  import opened PyText
  import opened QrCommon

  // ---------------------------------------------------------------------------
  // Colours

  /** One colour channel, `int(c * 255)` of the picker's float. */
  type Byte = x: int | 0 <= x < 256

  /** A picker colour. The alpha channel is carried but never shown. */
  datatype Rgba = Rgba(r: Byte, g: Byte, b: Byte, a: Byte)

  /** Opaque black and white, the widget's starting colours. */
  const Black := Rgba(0, 0, 0, 255)
  const White := Rgba(255, 255, 255, 255)

  /** `f"{v:02x}"` for a byte: two lower-case hexadecimal digits. */
  function HexByte(v: Byte): (h: string)
    ensures |h| == 2
    ensures IsDigit(h[0], 16) && IsDigit(h[1], 16)
    ensures !('A' <= h[0] <= 'Z') && !('A' <= h[1] <= 'Z')
  {
    [DigitChar(v / 16), DigitChar(v % 16)]
  }

  /** `rgb_to_hex`: '#' and two lower-case hexadecimal digits per channel;
      the alpha channel is dropped. */
  function RgbToHex(c: Rgba): (s: string)
    ensures |s| == 7 && s[0] == '#'
    ensures s[1..3] == HexByte(c.r) && s[3..5] == HexByte(c.g) && s[5..7] == HexByte(c.b)
  {
    var s := "#" + HexByte(c.r) + HexByte(c.g) + HexByte(c.b);
    assert s[1..3] == HexByte(c.r) && s[3..5] == HexByte(c.g) && s[5..7] == HexByte(c.b);
    s
  }

  /** After the '#' come six lower-case hexadecimal digits. */
  lemma RgbToHexDigits(c: Rgba)
    ensures forall i :: 1 <= i < 7 ==> IsDigit(RgbToHex(c)[i], 16) && !('A' <= RgbToHex(c)[i] <= 'Z')
  {
    var s := RgbToHex(c);
    forall i | 1 <= i < 7 ensures IsDigit(s[i], 16) && !('A' <= s[i] <= 'Z') {
      var h := if i < 3 then HexByte(c.r) else if i < 5 then HexByte(c.g) else HexByte(c.b);
      var k := if i < 3 then 1 else if i < 5 then 3 else 5;
      assert s[i] == s[k..k + 2][i - k] == h[i - k];
    }
  }

  /** The alpha channel does not show in the hex string. */
  lemma RgbToHexIgnoresAlpha(c: Rgba, a: Byte)
    ensures RgbToHex(c.(a := a)) == RgbToHex(c)
  {
  }

  /** Reading one hexadecimal pair back gives its byte. */
  lemma HexByteValue(v: Byte)
    ensures ParseInt(HexByte(v), 16) == Some(v)
  {
    HexPairValue(v / 16, v % 16);
    assert HexByte(v) == [DigitChar(v / 16), DigitChar(v % 16)];
    assert v / 16 * 16 + v % 16 == v as int;
  }

  /** Colours with the same red, green and blue give the same string, and
      only they do. */
  lemma RgbToHexInjective(c: Rgba, d: Rgba)
    ensures RgbToHex(c) == RgbToHex(d) <==> (c.r, c.g, c.b) == (d.r, d.g, d.b)
  {
    if RgbToHex(c) == RgbToHex(d) {
      HexByteValue(c.r);
      HexByteValue(c.g);
      HexByteValue(c.b);
      HexByteValue(d.r);
      HexByteValue(d.g);
      HexByteValue(d.b);
    }
  }

  /** `hex_to_rgb` up to the division by 255: every leading '#' removed, then
      `int(h[i:i+2], 16)` for i = 0, 2, 4, with Python's clamped slices.
      `None` stands for the `ValueError` of a pair that is not a number. */
  function HexToRgb(hex: string): (r: Option<(int, int, int)>)
    ensures r.Some? ==>
      var h := LStripChar(hex, '#');
      && ParseInt(Slice(h, 0, 2), 16) == Some(r.value.0)
      && ParseInt(Slice(h, 2, 4), 16) == Some(r.value.1)
      && ParseInt(Slice(h, 4, 6), 16) == Some(r.value.2)
    ensures r.None? ==>
      var h := LStripChar(hex, '#');
      || ParseInt(Slice(h, 0, 2), 16).None?
      || ParseInt(Slice(h, 2, 4), 16).None?
      || ParseInt(Slice(h, 4, 6), 16).None?
  {
    var h := LStripChar(hex, '#');
    var red, green, blue := ParseInt(Slice(h, 0, 2), 16), ParseInt(Slice(h, 2, 4), 16), ParseInt(Slice(h, 4, 6), 16);
    if red.Some? && green.Some? && blue.Some? then Some((red.value, green.value, blue.value))
    else None
  }

  /** Converting a colour to hex and back gives its channels. */
  lemma HexRoundTrip(c: Rgba)
    ensures HexToRgb(RgbToHex(c)) == Some((c.r as int, c.g as int, c.b as int))
  {
    var s := RgbToHex(c);
    var h := LStripChar(s, '#');
    assert |h| == 6 by {
      assert s[1] != '#';
    }
    assert h == s[1..];
    assert Slice(h, 0, 2) == HexByte(c.r);
    assert Slice(h, 2, 4) == HexByte(c.g);
    assert Slice(h, 4, 6) == HexByte(c.b);
    HexByteValue(c.r);
    HexByteValue(c.g);
    HexByteValue(c.b);
  }

  /** A string with four or fewer characters after the '#' has an empty
      third pair, so it is refused. */
  lemma HexTooShort(hex: string)
    requires |LStripChar(hex, '#')| <= 4
    ensures HexToRgb(hex).None?
  {
    var h := LStripChar(hex, '#');
    assert Slice(h, 4, 6) == "";
    ParseIntBlank("", 16);
  }

  // ---------------------------------------------------------------------------
  // URL check

  /** `validate_url`: the `validators` package when it is installed
      (`hasValidators`), otherwise the two web prefixes. */
  function ValidateUrl(url: string, hasValidators: bool, validator: string -> bool): (ok: bool)
    ensures hasValidators ==> ok == validator(url)
    ensures !hasValidators ==> (ok <==> StartsWith(url, "http://") || StartsWith(url, "https://"))
  {
    if hasValidators then validator(url)
    else StartsWith(url, "http://") || StartsWith(url, "https://")
  }

  /** Without the package, any text that starts with "https://" passes and
      the empty text does not. */
  lemma ValidateUrlFallback(rest: string, validator: string -> bool)
    ensures ValidateUrl("https://" + rest, false, validator)
    ensures !ValidateUrl("", false, validator)
  {
    assert ("https://" + rest)[..8] == "https://";
  }

  // ---------------------------------------------------------------------------
  // The success message

  /** The prefix of the success popup's message. */
  const SavedPrefix := "QR code saved as: "

  /** `message.split(": ")[1]`, the path "Open File" opens; `None` stands
      for the `IndexError` of a message without the separator. */
  function OpenFilePath(message: string): (path: Option<string>)
    ensures path.Some? <==> |Split(message, ": ")| >= 2
    ensures path.Some? ==> path.value == Split(message, ": ")[1]
  {
    var parts := Split(message, ": ");
    if |parts| >= 2 then Some(parts[1]) else None
  }

  /** The separator first occurs right after "QR code saved as" when the
      name holds no colon. */
  lemma SavedSeparatorAt(name: string)
    requires NoColon(name)
    ensures IndexOf(SavedPrefix + name, ": ") == Some(16)
  {
    var m := SavedPrefix + name;
    assert m[16..18] == ": ";
    assert OccursAt(m, ": ", 16);
    forall k: nat | k < 16 ensures !OccursAt(m, ": ", k) {
      assert m[k] == SavedPrefix[k];
    }
  }

  /** The path "Open File" opens is the name that was saved: generated names
      hold no ": ", so splitting the message gives back exactly that name. */
  lemma OpenFilePathRecoversName(t: DateTime, num: int)
    requires ValidDateTime(t) && ValidSuffix(num)
    ensures OpenFilePath(SavedPrefix + GeneratedName(t, num)) == Some(GeneratedName(t, num))
  {
    var name := GeneratedName(t, num);
    GeneratedNameNoColon(t, num);
    var m := SavedPrefix + name;
    SavedSeparatorAt(name);
    assert m[..16] == "QR code saved as";
    assert m[18..] == name;
    forall k: nat ensures !OccursAt(name, ": ", k) {
      if k + 2 <= |name| {
        assert name[k..k + 2][0] == name[k];
      }
    }
    SplitWithout(name, ": ");
    assert Split(m, ": ") == ["QR code saved as"] + [name];
  }

  // ---------------------------------------------------------------------------
  // The widget

  /** The encoder's data for the preview: the typed text, or a placeholder
      URL while the text box is empty. */
  function PreviewData(text: string): (d: string)
    ensures d != ""
    ensures text != "" ==> d == text
  {
    if text == "" then "https://example.com" else text
  }

  /** What the preview shows after one render: the new image when the
      encoder wrote it, the old one when it raised. */
  function Rendered(previous: Option<QrJob>, job: QrJob, encoder: Encoder): (now: Option<QrJob>)
    ensures encoder(job) == Written ==> now == Some(job)
    ensures encoder(job).Raised? ==> now == previous
  {
    if encoder(job) == Written then Some(job) else previous
  }

  /** What `save_qr_code` shows. */
  datatype Popup = ErrorPopup(message: string) | SuccessPopup(message: string)

  /** The values of the widget's controls: text box, sliders and their
      labels, tier spinner, colours and the texts of the colour buttons. */
  datatype Controls = Controls(
    text: string, size: int, border: int, sizeLabel: string, borderLabel: string,
    tierText: string, fill: Rgba, back: Rgba, fillButton: string, backButton: string)

  /** `QRWidget`: the controls whose values feed the encoder, and the image
      the preview shows. */
  class QrWidget {
    var dataText: string
    var sizeValue: int
    var borderValue: int
    var sizeLabel: string
    var borderLabel: string
    var ecText: string
    var fillColor: Rgba
    var bgColor: Rgba
    var fillButtonText: string
    var bgButtonText: string
    /** The last job whose image the preview shows. */
    var shown: Option<QrJob>

    /** All control values at once. */
    function State(): (c: Controls)
      reads this
      ensures c.text == dataText && c.size == sizeValue && c.border == borderValue
      ensures c.tierText == ecText && c.fill == fillColor && c.back == bgColor
    {
      Controls(dataText, sizeValue, borderValue, sizeLabel, borderLabel,
               ecText, fillColor, bgColor, fillButtonText, bgButtonText)
    }

    /** The sliders stay within their bounds (size 1..40, border 0..10, step 1)
        and each label shows its slider's value. */
    predicate Valid()
      reads this
    {
      && 1 <= sizeValue <= 40 && 0 <= borderValue <= 10
      && sizeLabel == Decimal(sizeValue) && borderLabel == Decimal(borderValue)
    }

    /** The widget as built: empty text, size 10, border 4, tier "H", black on
        white, and no preview yet (the first one is scheduled on the clock). */
    constructor()
      ensures Valid()
      ensures State() == Controls("", 10, 4, "10", "4", "H", Black, White, "Black", "White")
      ensures shown == None
    {
      dataText := "";
      sizeValue := 10;
      borderValue := 4;
      sizeLabel := "10";
      borderLabel := "4";
      ecText := "H";
      fillColor := Black;
      bgColor := White;
      fillButtonText := "Black";
      bgButtonText := "White";
      shown := None;
      assert Decimal(10) == "10" by {
        assert Decimal(1) == "1" && Decimal(0) == "0";
      }
      assert Decimal(4) == "4";
    }

    /** The settings `update_preview` and `save_qr_code` both compute:
        `int()` of the sliders, the spinner's tier with H as fallback, and
        both colours as hex strings. */
    function CurrentSettings(): (s: Settings)
      reads this
      ensures s.size == sizeValue && s.border == borderValue
      ensures s.tier == TierLookup(ecText)
      ensures s.fill == RgbToHex(fillColor) && s.back == RgbToHex(bgColor)
    {
      Settings(sizeValue, borderValue, RgbToHex(fillColor), RgbToHex(bgColor), TierLookup(ecText))
    }

    /** The job `update_preview` renders into the preview buffer. */
    function PreviewJob(): (job: QrJob)
      reads this
      ensures job.target == ToPreview && job.data != ""
      ensures dataText != "" ==> job.data == dataText
      ensures job.settings == CurrentSettings()
    {
      QrJob(PreviewData(dataText), CurrentSettings(), ToPreview)
    }

    /** `update_preview`: a rendered image replaces the preview; an encoder
        error is only logged and the old preview stays. */
    method UpdatePreview(encoder: Encoder)
      modifies this
      ensures State() == old(State())
      ensures shown == Rendered(old(shown), PreviewJob(), encoder)
    {
      shown := Rendered(shown, PreviewJob(), encoder);
    }

    /** Typing into the text box. The preview it schedules on the clock is a
        separate `UpdatePreview` call. */
    method SetText(text: string)
      requires Valid()
      modifies this
      ensures Valid()
      ensures State() == old(State()).(text := text)
      ensures shown == old(shown)
    {
      dataText := text;
    }

    /** `on_slider_change` for the size slider, which only yields whole
        values from 1 to 40. */
    method OnSizeSlider(value: int, encoder: Encoder)
      requires Valid() && 1 <= value <= 40
      modifies this
      ensures Valid()
      ensures State() == old(State()).(size := value, sizeLabel := Decimal(value))
      ensures shown == Rendered(old(shown), PreviewJob(), encoder)
    {
      sizeValue := value;
      sizeLabel := Decimal(value);
      UpdatePreview(encoder);
    }

    /** `on_slider_change` for the border slider (whole values 0 to 10). */
    method OnBorderSlider(value: int, encoder: Encoder)
      requires Valid() && 0 <= value <= 10
      modifies this
      ensures Valid()
      ensures State() == old(State()).(border := value, borderLabel := Decimal(value))
      ensures shown == Rendered(old(shown), PreviewJob(), encoder)
    {
      borderValue := value;
      borderLabel := Decimal(value);
      UpdatePreview(encoder);
    }

    /** Choosing a tier in the spinner re-renders the preview. */
    method OnTierSelected(text: string, encoder: Encoder)
      requires Valid()
      modifies this
      ensures Valid()
      ensures State() == old(State()).(tierText := text)
      ensures shown == Rendered(old(shown), PreviewJob(), encoder)
    {
      ecText := text;
      UpdatePreview(encoder);
    }

    /** The first half of `on_select`: the picked colour is stored and its
        button shows the hex string. */
    method StoreColor(forFill: bool, color: Rgba)
      requires Valid()
      modifies this
      ensures Valid()
      ensures forFill ==> State() == old(State()).(fill := color, fillButton := RgbToHex(color))
      ensures !forFill ==> State() == old(State()).(back := color, backButton := RgbToHex(color))
      ensures shown == old(shown)
    {
      var hex := RgbToHex(color);
      if forFill {
        fillColor, fillButtonText := color, hex;
      } else {
        bgColor, bgButtonText := color, hex;
      }
    }

    /** `on_select` in the colour popup: the colour is stored, its button
        shows the hex string, and the preview is re-rendered. */
    method OnColorSelected(forFill: bool, color: Rgba, encoder: Encoder)
      requires Valid()
      modifies this
      ensures Valid()
      ensures forFill ==> State() == old(State()).(fill := color, fillButton := RgbToHex(color))
      ensures !forFill ==> State() == old(State()).(back := color, backButton := RgbToHex(color))
      ensures shown == Rendered(old(shown), PreviewJob(), encoder)
    {
      StoreColor(forFill, color);
      UpdatePreview(encoder);
    }

    /** `save_qr_code`: with an empty text box an error popup and no encoder
        call; otherwise the job under the generated name, the same settings as
        the preview, and a popup with the encoder's verdict. */
    method SaveQrCode(now: DateTime, num: int, encoder: Encoder)
      returns (job: Option<QrJob>, popup: Popup)
      requires ValidDateTime(now) && ValidSuffix(num)
      ensures dataText == "" <==> job.None?
      ensures dataText == "" ==> popup == ErrorPopup("Please enter URL or text content")
      ensures job.Some? ==>
        && job.value == QrJob(dataText, CurrentSettings(), ToFile(GeneratedName(now, num)))
        && (encoder(job.value) == Written <==> popup == SuccessPopup(SavedPrefix + GeneratedName(now, num)))
        && (encoder(job.value).Raised? ==> popup == ErrorPopup("Error: " + encoder(job.value).message))
    {
      if dataText == "" {
        return None, ErrorPopup("Please enter URL or text content");
      }
      var name := GeneratedName(now, num);
      var j := QrJob(dataText, CurrentSettings(), ToFile(name));
      job := Some(j);
      match encoder(j)
      case Written =>
        popup := SuccessPopup(SavedPrefix + name);
      case Raised(message) =>
        popup := ErrorPopup("Error: " + message);
    }
  }

  /** Preview and save agree on everything but the target while the text box
      holds text: the job saved is the preview job sent to a file. */
  lemma PreviewMatchesSave(w: QrWidget, now: DateTime, num: int)
    requires ValidDateTime(now) && ValidSuffix(num)
    requires w.dataText != ""
    ensures w.PreviewJob().(target := ToFile(GeneratedName(now, num)))
         == QrJob(w.dataText, w.CurrentSettings(), ToFile(GeneratedName(now, num)))
  {
  }
}
