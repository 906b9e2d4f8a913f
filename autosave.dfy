/** Periodic output of a quantity (notify_autosave.go): when notified, an
    AutoSave asks the engine to save its quantity under a file name made of
    the quantity's name, the formatted output number and the format's name.

    The formatting of the output number (a Sprintf of the engine's file-name
    format), the lookup of the output format by name and the saving itself are
    outside this model: the first two enter as the strings they produce, the
    third as the request Notify hands to the engine. */
module AutoSaves {
  import opened Wrappers
  import opened Engine

  /** The arguments of the engine's Save call. */
  datatype SaveRequest = SaveRequest(quant: Quant, format: string, options: seq<string>, filename: string)

  /** quant + filenum + "." + format name. */
  function FileName(quant: string, filenum: string, formatName: string): string
  {
    quant + filenum + "." + formatName
  }

  /** The file name starts with the quantity's name, continues with the
      output number and ends with a dot and the format's name. */
  lemma FileNameParts(quant: string, filenum: string, formatName: string)
    ensures var f := FileName(quant, filenum, formatName);
            && |f| == |quant| + |filenum| + 1 + |formatName|
            && f[..|quant|] == quant
            && f[|quant|..|quant| + |filenum|] == filenum
            && f[|quant| + |filenum|] == '.'
            && f[|quant| + |filenum| + 1..] == formatName
  {
    var f := FileName(quant, filenum, formatName);
    assert f == quant + filenum + ['.'] + formatName;
  }

  /** For one quantity and one format, distinct output numbers give distinct
      file names: an autosave never overwrites an earlier output of itself. */
  lemma FileNameDeterminesNumber(quant: string, n1: string, n2: string, formatName: string)
    requires FileName(quant, n1, formatName) == FileName(quant, n2, formatName)
    ensures n1 == n2
  {
    FileNameParts(quant, n1, formatName);
    FileNameParts(quant, n2, formatName);
  }

  /** What Notify asks the engine to save, given the rendered output number and
      the name of the output format; a quantity the engine does not have makes
      the lookup panic. */
  function Request(s: EngineState, quant: string, format: string, options: seq<string>,
                   filenum: string, formatName: string): Result<SaveRequest>
  {
    if quant !in s.quants then Err(NoSuchQuant(quant))
    else Ok(SaveRequest(s.quants[quant], format, options, FileName(quant, filenum, formatName)))
  }

  /** Notify saves the named quantity, passes the format and options through
      unchanged, and names the file after the quantity, output number and format. */
  lemma RequestSavesNamedQuant(s: EngineState, quant: string, format: string, options: seq<string>,
                               filenum: string, formatName: string)
    ensures Request(s, quant, format, options, filenum, formatName).Ok? <==> quant in s.quants
    ensures Request(s, quant, format, options, filenum, formatName).Err? ==>
              Request(s, quant, format, options, filenum, formatName).error == NoSuchQuant(quant)
    ensures var r := Request(s, quant, format, options, filenum, formatName);
            r.Ok? ==> && r.value.quant == s.quants[quant]
                      && r.value.format == format && r.value.options == options
                      && r.value.filename[..|quant|] == quant
                      && r.value.filename[|quant|..|quant| + |filenum|] == filenum
                      && r.value.filename[|quant| + |filenum|..] == "." + formatName
  {
    FileNameParts(quant, filenum, formatName);
    var f := FileName(quant, filenum, formatName);
    assert f[|quant| + |filenum|..] == "." + formatName by {
      assert f == (quant + filenum) + ("." + formatName);
    }
  }

  /** AutoSave: what to save, in which format with which options, how often,
      and when it was last saved. */
  class AutoSave {
    var quant: string
    var format: string
    var options: seq<string>
    var period: real
    var last: real

    constructor (quant: string, format: string, options: seq<string>, period: real, last: real)
      ensures this.quant == quant && this.format == format && this.options == options
      ensures this.period == period && this.last == last
    {
      this.quant := quant;
      this.format := format;
      this.options := options;
      this.period := period;
      this.last := last;
    }

    /** Notify: builds the file name and hands the quantity to the engine's
        Save. It changes no field of the AutoSave, `last` included. */
    method Notify(e: Engine, filenum: string, formatName: string) returns (r: Result<SaveRequest>)
      ensures r == Request(e.State(), quant, format, options, filenum, formatName)
    {
      var filename := quant + filenum + "." + formatName;
      var q := e.Lookup(quant);
      if q.Err? {
        return Err(q.error);
      }
      r := Ok(SaveRequest(q.value, format, options, filename));
    }
  }
}
