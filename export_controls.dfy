/**
 * components/analysis/ExportControls.tsx: two checkboxes and a watermark
 * field whose current values the Export button hands to its callback.
 */
module ExportControls {
  import opened Types

  class Controls {
    var includeGhosts: bool
    var includeEli5: bool
    var watermark: string

    /** Both boxes start ticked and the watermark empty. */
    constructor ()
      ensures includeGhosts && includeEli5 && watermark == ""
    {
      includeGhosts := true;
      includeEli5 := true;
      watermark := "";
    }

    /** A click on the ghost-clause box flips it and nothing else. */
    method ClickGhosts()
      modifies this
      ensures includeGhosts == !old(includeGhosts)
      ensures includeEli5 == old(includeEli5) && watermark == old(watermark)
    {
      includeGhosts := !includeGhosts;
    }

    /** A click on the explanations box flips it and nothing else. */
    method ClickEli5()
      modifies this
      ensures includeEli5 == !old(includeEli5)
      ensures includeGhosts == old(includeGhosts) && watermark == old(watermark)
    {
      includeEli5 := !includeEli5;
    }

    /** The watermark follows the text field. */
    method SetWatermark(value: string)
      modifies this
      ensures watermark == value
      ensures includeGhosts == old(includeGhosts) && includeEli5 == old(includeEli5)
    {
      watermark := value;
    }

    /** The Export button: the current triple, the watermark always present
        (possibly empty). */
    method Export() returns (options: ExportOptions)
      ensures options.includeGhosts == includeGhosts && options.includeEli5 == includeEli5
      ensures options.watermark == Some(watermark)
    {
      options := ExportOptions(includeGhosts, includeEli5, Some(watermark));
    }
  }

  /** Exporting straight away emits the defaults. */
  method ExportDefaults() returns (options: ExportOptions)
    ensures options == ExportOptions(true, true, Some(""))
  {
    var c := new Controls();
    options := c.Export();
  }

  /** The two boxes are independent: the order of clicks does not matter,
      and clicking one box twice restores it. */
  method ClicksCommute(c: Controls)
    modifies c
    ensures c.includeGhosts == !old(c.includeGhosts) && c.includeEli5 == !old(c.includeEli5)
    ensures c.watermark == old(c.watermark)
  {
    c.ClickGhosts();
    c.ClickEli5();
    c.ClickGhosts();
    c.ClickGhosts();
  }
}
