/** What the command-line and the GUI QR generators share: the four
    error-correction tiers and their lookup table, the parameters handed to the
    external `qrcode` encoder, the encoder's outcome, and the automatically
    generated output name `qrimg_<timestamp>_<num>.png`. */
module QrCommon {
  import opened PyText

  /** The four recovery tiers of QR Code (ISO/IEC 18004): about 7, 15, 25 and
      30 percent of the codewords can be restored. */
  datatype Tier = L | M | Q | H

  /** `ec_map.get(key, ERROR_CORRECT_H)`: the table keyed by the exact
      strings "L", "M", "Q" and "H", with H for every other key. */
  function TierLookup(key: string): Tier {
    if key == "L" then L
    else if key == "M" then M
    else if key == "Q" then Q
    else H
  }

  /** Only the four exact keys select their tier; every other key gives H. */
  lemma TierLookupExact(key: string)
    ensures TierLookup(key) == L <==> key == "L"
    ensures TierLookup(key) == M <==> key == "M"
    ensures TierLookup(key) == Q <==> key == "Q"
    ensures TierLookup(key) == H <==> key != "L" && key != "M" && key != "Q"
  {
  }

  /** What one generation call passes to the encoder besides the payload:
      `version=size`, `border=border`, `fill_color`, `back_color` and
      `error_correction`. `box_size` is always 10. */
  datatype Settings = Settings(size: int, border: int, fill: string, back: string, tier: Tier)

  /** Where the rendered image goes: a named file, or the in-memory PNG buffer
      the GUI turns into its preview texture. */
  datatype Target = ToFile(name: string) | ToPreview

  /** One call of the external encoder: `add_data(data)`, `make(fit=True)`,
      `make_image(...)` and `save(...)` with these values. */
  datatype QrJob = QrJob(data: string, settings: Settings, target: Target)

  /** What the external encoder did with one job: it wrote the image, or it
      raised an exception with this message. */
  datatype EncodeResult = Written | Raised(message: string)

  /** The `qrcode` library, seen from the programs: any job may fail. */
  type Encoder = QrJob -> EncodeResult

  /** `datetime.now()`, broken down into the fields the timestamp shows. */
  datatype DateTime = DateTime(year: nat, month: nat, day: nat, hour: nat, minute: nat, second: nat)

  /** The ranges `datetime` guarantees for its fields. */
  predicate ValidDateTime(t: DateTime) {
    && 1 <= t.year <= 9999 && 1 <= t.month <= 12 && 1 <= t.day <= 31
    && t.hour < 24 && t.minute < 60 && t.second < 60
  }

  /** `strftime("%Y%m%d_%H%M%S")`: fifteen characters, digits around one underscore. */
  function Timestamp(t: DateTime): (r: string)
    requires ValidDateTime(t)
    ensures |r| == 15 && r[8] == '_'
    ensures forall i :: 0 <= i < |r| && i != 8 ==> '0' <= r[i] <= '9'
  {
    Pad4(t.year) + Pad2(t.month) + Pad2(t.day) + "_" + Pad2(t.hour) + Pad2(t.minute) + Pad2(t.second)
  }

  /** The random suffix `random.randint(1000, 9999)`. */
  predicate ValidSuffix(num: int) {
    1000 <= num <= 9999
  }

  /** No character of `s` is a colon. */
  predicate NoColon(s: string) {
    forall i :: 0 <= i < |s| ==> s[i] != ':'
  }

  lemma NoColonConcat(a: string, b: string)
    requires NoColon(a) && NoColon(b)
    ensures NoColon(a + b)
  {
    forall i | 0 <= i < |a + b| ensures (a + b)[i] != ':' {
      if i >= |a| {
        assert (a + b)[i] == b[i - |a|];
      }
    }
  }

  /** `f"qrimg_{timestamp}_{num}.png"`, used by both programs when no name is
      given: thirty characters. */
  function GeneratedName(t: DateTime, num: int): (r: string)
    requires ValidDateTime(t) && ValidSuffix(num)
    ensures |r| == 30
  {
    "qrimg_" + Timestamp(t) + "_" + Decimal(num) + ".png"
  }

  /** Where the parts of a generated name sit: the prefix, the timestamp at
      6..21, an underscore, the four digits of the suffix, `.png`. */
  lemma GeneratedNameFields(t: DateTime, num: int)
    requires ValidDateTime(t) && ValidSuffix(num)
    ensures var r := GeneratedName(t, num);
      && StartsWith(r, "qrimg_") && EndsWith(r, ".png")
      && r[6..21] == Timestamp(t) && r[21] == '_' && r[22..26] == Decimal(num)
  {
    var ts, digits := Timestamp(t), Decimal(num);
    var r := GeneratedName(t, num);
    var head, tail := "qrimg_" + ts, "_" + digits + ".png";
    assert r == head + tail;
    assert r[..6] == head[..6] == "qrimg_";
    assert r[6..21] == head[6..] == ts;
    assert r[21..] == tail;
    assert tail[1..5] == digits && tail[5..] == ".png";
  }

  /** A generated name has no colon in it. */
  lemma GeneratedNameNoColon(t: DateTime, num: int)
    requires ValidDateTime(t) && ValidSuffix(num)
    ensures NoColon(GeneratedName(t, num))
  {
    var ts, digits := Timestamp(t), Decimal(num);
    assert NoColon(ts) && NoColon(digits);
    NoColonConcat("qrimg_", ts);
    NoColonConcat("qrimg_" + ts, "_");
    NoColonConcat("qrimg_" + ts + "_", digits);
    NoColonConcat("qrimg_" + ts + "_" + digits, ".png");
  }

  /** Two generated names are equal exactly when they carry the same
      timestamp and the same random suffix: names made within one second
      differ whenever their suffixes do. */
  lemma GeneratedNameInjective(t1: DateTime, n1: int, t2: DateTime, n2: int)
    requires ValidDateTime(t1) && ValidSuffix(n1) && ValidDateTime(t2) && ValidSuffix(n2)
    ensures GeneratedName(t1, n1) == GeneratedName(t2, n2) <==> Timestamp(t1) == Timestamp(t2) && n1 == n2
  {
    var a, b := GeneratedName(t1, n1), GeneratedName(t2, n2);
    GeneratedNameFields(t1, n1);
    GeneratedNameFields(t2, n2);
    if a == b {
      assert Timestamp(t1) == a[6..21] == Timestamp(t2);
      assert Decimal(n1) == a[22..26] == Decimal(n2);
      DecimalInjective(n1, n2);
    }
  }
}
