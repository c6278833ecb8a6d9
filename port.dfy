/** The listening port chosen at start-up from the `PORT` environment variable. */
module Port {
  import opened Ints
  import opened Wrappers
  import Decimal

  const DEFAULT_PORT: u16 := 59232
  const DEFAULT_PORT_TEXT := "59232"

  /**
   * `env::var("PORT").unwrap_or_else(|_| "59232".into()).parse().unwrap_or(59232)`;
   * `port` is None when the variable is unset or not valid Unicode.
   */
  function SelectPort(port: Option<string>): (p: u16)
    ensures port.Some? && Decimal.ParseU16(port.value).Some? ==> p == Decimal.ParseU16(port.value).value
    ensures port.None? || Decimal.ParseU16(port.value).None? ==> p == DEFAULT_PORT
  {
    DefaultTextParses();
    Decimal.ParseU16(port.GetOr(DEFAULT_PORT_TEXT)).GetOr(DEFAULT_PORT)
  }

  /** The fallback text names the same port as the fallback number. */
  lemma DefaultTextParses()
    ensures Decimal.ParseU16(DEFAULT_PORT_TEXT) == Some(DEFAULT_PORT)
  {
    var t := DEFAULT_PORT_TEXT;
    assert Decimal.Value(t) == DEFAULT_PORT by {
      assert Decimal.Value("5") == 5 by { assert "5"[..0] == ""; }
      assert Decimal.Value("59") == 59 by { assert "59"[..1] == "5"; }
      assert Decimal.Value("592") == 592 by { assert "592"[..2] == "59"; }
      assert Decimal.Value("5923") == 5923 by { assert "5923"[..3] == "592"; }
      assert t[..4] == "5923";
    }
    Decimal.FormatValue(t);
    Decimal.ParseFormat(DEFAULT_PORT);
  }

  /** Every port can be selected by writing it in decimal, with or without a '+'. */
  lemma EveryPortSelectable(n: u16)
    ensures SelectPort(Some(Decimal.Format(n))) == n
    ensures SelectPort(Some("+" + Decimal.Format(n))) == n
  {
    Decimal.ParseFormat(n);
  }

  /** Text that is empty or holds a non-digit falls back to the default port instead of failing. */
  lemma NonNumericFallsBack()
    ensures SelectPort(Some("")) == DEFAULT_PORT
    ensures SelectPort(Some("http")) == DEFAULT_PORT
    ensures SelectPort(Some("-1")) == DEFAULT_PORT
    ensures SelectPort(Some(" 80")) == DEFAULT_PORT
    ensures SelectPort(Some("+")) == DEFAULT_PORT
  {
    assert Decimal.Unsigned("http") == "http" && !Decimal.IsDigit("http"[0]);
    assert Decimal.Unsigned("-1") == "-1" && !Decimal.IsDigit("-1"[0]);
    assert Decimal.Unsigned(" 80") == " 80" && !Decimal.IsDigit(" 80"[0]);
    assert Decimal.Unsigned("+") == "";
  }

  /** A number beyond the 16-bit range falls back to the default port. */
  lemma OutOfRangeFallsBack()
    ensures SelectPort(Some("65536")) == DEFAULT_PORT
  {
    assert Decimal.Unsigned("65536") == "65536";
    assert Decimal.Value("65536") == 65536 by {
      assert Decimal.Value("6") == 6 by { assert "6"[..0] == ""; }
      assert Decimal.Value("65") == 65 by { assert "65"[..1] == "6"; }
      assert Decimal.Value("655") == 655 by { assert "655"[..2] == "65"; }
      assert Decimal.Value("6553") == 6553 by { assert "6553"[..3] == "655"; }
      assert "65536"[..4] == "6553";
    }
  }
}
