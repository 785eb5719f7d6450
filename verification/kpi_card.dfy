/** The KPI card component: a title, a value, an optional trend line and a
    coloured border. Only its decisions are modelled; the markup is not. */
module KpiCard {
  import opened Session

  const DefaultColor: string := "#1976d2"
  const UpArrow: string := "\U{2191}"
  const DownArrow: string := "\U{2193}"

  /** The trend line under the value: its class, arrow, magnitude and label. */
  datatype TrendLine = TrendLine(positive: bool, arrow: string, magnitude: real, trendLabel: string)

  datatype Card = Card(title: string, value: string, border: string, trend: Option<TrendLine>)

  /** JavaScript's `a || b` on an optional string: the empty string is falsy. */
  function OrElse(s: Option<string>, fallback: string): string
  {
    if s.Some? && s.value != "" then s.value else fallback
  }

  function Abs(x: real): (r: real)
    ensures r >= 0.0 && (r == x || r == -x)
  {
    if x < 0.0 then -x else x
  }

  /** The card for the given props; `None` stands for an undefined prop. */
  function Render(title: string, value: string, trend: Option<real>,
                  trendLabel: Option<string>, color: Option<string>): (c: Card)
    ensures c.title == title && c.value == value
    ensures c.trend.Some? <==> trend.Some?
    ensures trend.Some? ==>
              && (c.trend.value.positive <==> trend.value > 0.0)
              && c.trend.value.arrow == (if trend.value > 0.0 then UpArrow else DownArrow)
              && c.trend.value.magnitude >= 0.0
              && (c.trend.value.magnitude == trend.value || c.trend.value.magnitude == -trend.value)
    ensures c.border == (if color.Some? && color.value != "" then color.value else DefaultColor)
    ensures trend.Some? ==>
              c.trend.value.trendLabel == (if trendLabel.Some? then trendLabel.value else "")
  {
    var isPositive := trend.Some? && trend.value > 0.0;
    Card(title, value, OrElse(color, DefaultColor),
         if trend.None? then None
         else Some(TrendLine(isPositive, if isPositive then UpArrow else DownArrow,
                             Abs(trend.value), OrElse(trendLabel, ""))))
  }

  /** A zero trend is shown as falling: down arrow, not positive. */
  lemma ZeroTrendShowsDown(title: string, value: string, trendLabel: Option<string>, color: Option<string>)
    ensures var c := Render(title, value, Some(0.0), trendLabel, color);
            c.trend.Some? && !c.trend.value.positive && c.trend.value.arrow == DownArrow
            && c.trend.value.magnitude == 0.0
  {
  }

  /** Opposite trends show the same magnitude with opposite arrows, unless zero. */
  lemma OppositeTrendsSameMagnitude(t: real, trendLabel: Option<string>, color: Option<string>)
    requires t != 0.0
    ensures var up := Render("", "", Some(t), trendLabel, color).trend.value;
            var down := Render("", "", Some(-t), trendLabel, color).trend.value;
            up.magnitude == down.magnitude && up.positive != down.positive && up.arrow != down.arrow
  {
  }
}
