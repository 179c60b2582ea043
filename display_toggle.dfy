/**
 * The display switch of scripts/ui/data-display.js: toggleDisplayData,
 * updateMenuButtons and updateGlobalClimateData, over the page state they
 * change (the selected data type, the menu buttons and the two panels).
 */
module DisplayToggle {
  import opened Prelude
  import opened Scene
  import DataDisplay
  import FloatingInterfaces
  import TempoIntegration

  /**
   * updateMenuButtons on the buttons' `data-display` values: a button is
   * active exactly when its value is the selected type.
   */
  function ActiveButtons(buttons: seq<string>, current: string): (active: seq<bool>)
    ensures |active| == |buttons|
    ensures forall i :: 0 <= i < |buttons| ==> (active[i] <==> buttons[i] == current)
  {
    seq(|buttons|, i requires 0 <= i < |buttons| => buttons[i] == current)
  }

  /** When the values are distinct, at most one button is active. */
  lemma AtMostOneActive(buttons: seq<string>, current: string, i: int, j: int)
    requires forall a, b :: 0 <= a < b < |buttons| ==> buttons[a] != buttons[b]
    requires 0 <= i < |buttons| && 0 <= j < |buttons|
    requires ActiveButtons(buttons, current)[i] && ActiveButtons(buttons, current)[j]
    ensures i == j
  {
  }

  /** A panel element keeps its text unless the new panel writes it. */
  function Written<T>(before: Option<T>, after: Option<T>): (r: Option<T>)
    ensures after.Some? ==> r == after
    ensures after.None? ==> r == before
  {
    if after.Some? then after else before
  }

  /** The climate panel after `p` is written over `before`. */
  function Overwrite(before: DataDisplay.ClimatePanel, p: DataDisplay.ClimatePanel): DataDisplay.ClimatePanel
  {
    DataDisplay.ClimatePanel(Written(before.temperature, p.temperature), Written(before.humidity, p.humidity),
      Written(before.pressure, p.pressure), Written(before.wind, p.wind), Written(before.clouds, p.clouds),
      Written(before.feelsLike, p.feelsLike))
  }

  /** Writing the same panel twice is writing it once. */
  lemma OverwriteIdempotent(before: DataDisplay.ClimatePanel, p: DataDisplay.ClimatePanel)
    ensures Overwrite(Overwrite(before, p), p) == Overwrite(before, p)
    ensures (p.temperature.Some? && p.humidity.Some? && p.pressure.Some? && p.wind.Some? && p.clouds.Some? &&
      p.feelsLike.Some?) ==> Overwrite(before, p) == p
  {
  }

  /** What the panels show, as far as this model tracks it. */
  class Page {
    /** `currentDisplayData`, 'co2' at load. */
    var current: string
    var buttons: seq<string>
    var active: seq<bool>
    var climate: DataDisplay.ClimatePanel
    var tempoCount: Option<nat>
    var tempoRates: Option<Option<TempoIntegration.PanelRates>>

    /** The page at load: 'co2' selected, every panel element untouched. */
    constructor(buttons: seq<string>)
      ensures this.current == "co2" && this.buttons == buttons && this.active == ActiveButtons(buttons, "co2")
      ensures climate == DataDisplay.ClimatePanel(None, None, None, None, None, None)
      ensures tempoCount.None? && tempoRates.None?
    {
      current := "co2";
      this.buttons := buttons;
      active := ActiveButtons(buttons, "co2");
      climate := DataDisplay.ClimatePanel(None, None, None, None, None, None);
      tempoCount := None;
      tempoRates := None;
    }

    /**
     * updateGlobalClimateData: without a globe nothing changes; otherwise
     * the climate panel is written from the collected data and the TEMPO
     * panel is refreshed. The globe is only read.
     */
    method UpdateGlobalClimateData(g: Globe?)
      modifies this
      ensures current == old(current) && buttons == old(buttons) && active == old(active)
      ensures g == null ==> climate == old(climate) && tempoCount == old(tempoCount) && tempoRates == old(tempoRates)
      ensures g != null ==> climate == Overwrite(old(climate), DataDisplay.UpdateClimateDisplay(ClimateOf(g.nodes)))
      ensures g != null ==> tempoCount == Some(TempoIntegration.TempoPointCount(g.nodes))
      ensures g != null ==> tempoRates == Some(TempoIntegration.RatesShown(g.nodes))
    {
      var c := DataDisplay.CollectClimateData(g);
      if c.None? {
        return;
      }
      climate := Overwrite(climate, DataDisplay.UpdateClimateDisplay(c.value));
      var count, rates := TempoIntegration.UpdateTEMPODataInPanel(g);
      tempoCount := Some(count);
      tempoRates := Some(rates);
    }

    /**
     * toggleDisplayData: the type is selected, the menu follows it, every
     * label is redrawn for it (`draws(i)` for node i), and the panels are
     * refreshed from the redrawn globe.
     */
    method ToggleDisplayData(g: Globe?, displayType: string, draws: nat -> FloatingInterfaces.LabelDraws)
      modifies this, g
      ensures current == displayType && buttons == old(buttons) && active == ActiveButtons(buttons, displayType)
      ensures g != null ==> (|g.nodes| == |old(g.nodes)| &&
        forall i :: 0 <= i < |g.nodes| ==> g.nodes[i] == FloatingInterfaces.Redrawn(old(g.nodes)[i], MetricOf(displayType), draws(i)))
      ensures g == null ==> climate == old(climate) && tempoCount == old(tempoCount) && tempoRates == old(tempoRates)
      ensures g != null ==> climate == Overwrite(old(climate), DataDisplay.UpdateClimateDisplay(ClimateOf(g.nodes)))
      ensures g != null ==> tempoCount == Some(TempoIntegration.TempoPointCount(g.nodes))
      ensures g != null ==> tempoRates == Some(TempoIntegration.RatesShown(g.nodes))
    {
      current := displayType;
      active := ActiveButtons(buttons, current);
      FloatingInterfaces.UpdateFloatingInterfaces(g, MetricOf(current), draws);
      UpdateGlobalClimateData(g);
    }
  }

  /** The climate data the traversal collects from `nodes`. */
  function ClimateOf(nodes: seq<Node>): (c: DataDisplay.ClimateData)
    ensures c.temperatures == DataDisplay.ClimateTemperatures(nodes)
    ensures c.temperatures != [] ==> c.minTemp == Some(MinOf(c.temperatures)) && c.maxTemp == Some(MaxOf(c.temperatures))
    ensures c.temperatures == [] ==> c.minTemp.None? && c.maxTemp.None?
  {
    var t := DataDisplay.ClimateTemperatures(nodes);
    DataDisplay.ClimateData(t, if t == [] then None else Some(MinOf(t)), if t == [] then None else Some(MaxOf(t)), [], [], [], [], [])
  }

  /**
   * Nodes that differ at most in their interfaces give the same climate
   * temperatures, the same TEMPO count and the same collection.
   */
  lemma {:induction false} SameTagsSameSummaries(a: seq<Node>, b: seq<Node>)
    requires |a| == |b|
    requires forall i :: 0 <= i < |a| ==> b[i].user == a[i].user.(iface := b[i].user.iface)
    ensures DataDisplay.ClimateTemperatures(b) == DataDisplay.ClimateTemperatures(a)
    ensures TempoIntegration.TempoPointCount(b) == TempoIntegration.TempoPointCount(a)
    ensures TempoIntegration.Collected(b, TempoIntegration.AsWrittenKey) == TempoIntegration.Collected(a, TempoIntegration.AsWrittenKey)
  {
    if a != [] {
      SameTagsSameSummaries(a[..|a| - 1], b[..|b| - 1]);
    }
  }

  /**
   * Switching the type only redraws labels, so the panels show the same
   * thing whichever type is selected.
   */
  lemma ToggleKeepsPanels(nodes: seq<Node>, m: Metric, draws: nat -> FloatingInterfaces.LabelDraws)
    ensures var after := seq(|nodes|, i requires 0 <= i < |nodes| => FloatingInterfaces.Redrawn(nodes[i], m, draws(i)));
      ClimateOf(after) == ClimateOf(nodes) && TempoIntegration.TempoPointCount(after) == TempoIntegration.TempoPointCount(nodes) &&
      TempoIntegration.RatesShown(after) == TempoIntegration.RatesShown(nodes)
  {
    var after := seq(|nodes|, i requires 0 <= i < |nodes| => FloatingInterfaces.Redrawn(nodes[i], m, draws(i)));
    forall i | 0 <= i < |nodes|
      ensures after[i].user == nodes[i].user.(iface := after[i].user.iface)
    {
      assert after[i] == FloatingInterfaces.Redrawn(nodes[i], m, draws(i));
      if nodes[i].user.iface.Some? {
        FloatingInterfaces.RedrawKeepsPlacement(nodes[i], m, draws(i));
      }
    }
    SameTagsSameSummaries(nodes, after);
  }
}
