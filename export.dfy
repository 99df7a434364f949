/** `on_export`: save the terminal's text to a file whose name ends in
    ".txt". The save dialog is not modelled; the name the user chose (empty
    when the dialog was cancelled) is an input, and the file write is the
    outcome `Written`. */
module Export {
  import opened PyText

  const TxtSuffix := ".txt"

  /** `base if base.endswith('.txt') else base + '.txt'`. */
  function ExportPath(base: string): (r: string)
    ensures EndsWith(r, TxtSuffix)
    ensures EndsWith(base, TxtSuffix) <==> r == base
    ensures !EndsWith(base, TxtSuffix) ==> r == base + TxtSuffix
  {
    if EndsWith(base, TxtSuffix) then base else base + TxtSuffix
  }

  /** Normalising an already normalised path changes nothing. */
  lemma ExportPathIdempotent(base: string)
    ensures ExportPath(ExportPath(base)) == ExportPath(base)
  {
  }

  /** The chosen name is always kept as the start of the path, and at most
      the four characters of the suffix are added. */
  lemma ExportPathExtends(base: string)
    ensures var r := ExportPath(base);
      |base| <= |r| <= |base| + 4 && r[..|base|] == base
  {
  }

  /** What `on_export` does. */
  datatype ExportOutcome =
    | NothingToExport                          // the "nothing to export yet" notice
    | Cancelled                                // the dialog returned no name
    | Written(path: string, contents: string)  // the file written

  /** `on_export` with the terminal's text and the name returned by the save
      dialog. The dialog is only shown when there is something to export. */
  function OnExport(text: string, chosen: string): (r: ExportOutcome)
    ensures r == NothingToExport <==> Strip(text) == []
    ensures r == Cancelled <==> Strip(text) != [] && chosen == []
    ensures r.Written? ==> r.contents == text && r.path == ExportPath(chosen) && chosen != []
  {
    if Strip(text) == [] then NothingToExport
    else if chosen == [] then Cancelled
    else Written(ExportPath(chosen), text)
  }

  /** Whatever was typed in the dialog, a written file's name ends in ".txt",
      and the text written, unstripped, has something besides spaces. */
  lemma ExportWritesTxt(text: string, chosen: string)
    requires OnExport(text, chosen).Written?
    ensures EndsWith(OnExport(text, chosen).path, TxtSuffix)
    ensures exists i :: 0 <= i < |text| && !IsSpace(text[i])
  {
    StripEmptyIff(text);
  }
}
