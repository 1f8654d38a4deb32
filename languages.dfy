/**
 * The editor's language detection (src/lib/constants.ts): the extension
 * table and `getLanguageFromFilename`, which lower-cases the text after
 * the last `.` of a file name and looks it up, falling back to plaintext.
 */
module Languages {
  import opened Wrappers
  import opened Text
  import opened Tables

  /** `LANGUAGE_MAP`, in declaration order. */
  const LanguageMap: seq<(string, string)> := [
    ("js", "javascript"),
    ("jsx", "javascript"),
    ("ts", "typescript"),
    ("tsx", "typescript"),
    ("py", "python"),
    ("c", "c"),
    ("cpp", "cpp"),
    ("cc", "cpp"),
    ("cxx", "cpp"),
    ("go", "go"),
    ("rs", "rust"),
    ("html", "html"),
    ("css", "css"),
    ("json", "json"),
    ("md", "markdown"),
    ("txt", "plaintext"),
    ("asm", "assembly")
  ]

  const Fallback: string := "plaintext"

  /** `filename.split('.').pop().toLowerCase()`: the lower-cased text after the last dot, the whole name when there is none. */
  function Extension(filename: string): (ext: string)
    ensures '.' !in ext
    ensures forall i :: 0 <= i < |ext| ==> !IsUpper(ext[i])
  {
    var last := LastSegment(filename, '.');
    LowerKeepsDots(last);
    Lower(last)
  }

  /** Lower-casing neither adds nor removes dots. */
  lemma LowerKeepsDots(s: string)
    ensures '.' in Lower(s) <==> '.' in s
  {
    var low := Lower(s);
    if '.' in low {
      var i :| 0 <= i < |low| && low[i] == '.';
      assert s[i] == '.';
    }
    if '.' in s {
      var i :| 0 <= i < |s| && s[i] == '.';
      assert low[i] == '.';
    }
  }

  /** `table[ext] || 'plaintext'`: the entry's language when there is one and it is not empty. */
  function LanguageIn(table: seq<(string, string)>, ext: string): (lang: string)
    ensures lang == Fallback || exists i :: 0 <= i < |table| && table[i] == (ext, lang)
    ensures (forall i :: 0 <= i < |table| ==> table[i].0 != ext) ==> lang == Fallback
  {
    match Find(table, ext)
    case Some(lang) => if lang != "" then lang else Fallback
    case None => Fallback
  }

  /** `getLanguageFromFilename`: always one of the table's languages or plaintext. */
  function GetLanguageFromFilename(filename: string): (lang: string)
    ensures lang == Fallback || exists i :: 0 <= i < |LanguageMap| && LanguageMap[i].1 == lang
  {
    LanguageIn(LanguageMap, Extension(filename))
  }

  /** The extension of `prefix.ext` is the lower-cased `ext`, whatever the prefix holds. */
  lemma ExtensionAfterLastDot(prefix: string, ext: string)
    requires '.' !in ext
    ensures Extension(prefix + "." + ext) == Lower(ext)
  {
    LastSegmentAfter(prefix, '.', ext);
  }

  /** A name without a dot is looked up whole, lower-cased. */
  lemma ExtensionOfWholeName(name: string)
    requires '.' !in name
    ensures Extension(name) == Lower(name)
  {
    assert LastSegment(name, '.') == name;
  }

  /** Only the text after the last dot counts: `a.test.ts` is detected as `ts` is. */
  lemma LastSegmentOnly(prefix: string, ext: string)
    requires '.' !in ext
    ensures GetLanguageFromFilename(prefix + "." + ext) == GetLanguageFromFilename(ext)
  {
    ExtensionAfterLastDot(prefix, ext);
    ExtensionOfWholeName(ext);
  }

  /** Case does not matter in the extension: `main.PY` is detected as `main.py` is. */
  lemma CaseInsensitive(prefix: string, ext: string)
    requires '.' !in ext
    ensures GetLanguageFromFilename(prefix + "." + ext) == GetLanguageFromFilename(prefix + "." + Lower(ext))
  {
    LowerKeepsDots(ext);
    ExtensionAfterLastDot(prefix, ext);
    ExtensionAfterLastDot(prefix, Lower(ext));
    LowerIdempotent(ext);
  }

  /** A name without a dot is looked up whole: `c` and `go` are keys as well as names. */
  lemma WholeName(name: string)
    requires '.' !in name
    ensures GetLanguageFromFilename(name) == LanguageIn(LanguageMap, Lower(name))
  {
    ExtensionOfWholeName(name);
  }

  /** `table[ext] || 'plaintext'` at an entry: the first entry with a key decides, and an empty language falls back. */
  lemma LanguageInEntry(table: seq<(string, string)>, i: nat)
    requires i < |table|
    requires forall j :: 0 <= j < i ==> table[j].0 != table[i].0
    ensures LanguageIn(table, table[i].0) == if table[i].1 != "" then table[i].1 else Fallback
  {
    FindFirst(table, i);
  }

  /** No extension is listed twice in `LANGUAGE_MAP`. */
  lemma LanguageMapDistinct()
    ensures DistinctKeys(LanguageMap)
  {
  }

  /** Every key of `LANGUAGE_MAP` is a lower-case, dot-free extension, and every language is named. */
  lemma LanguageMapPlain(i: nat)
    requires i < |LanguageMap|
    ensures '.' !in LanguageMap[i].0
    ensures Lower(LanguageMap[i].0) == LanguageMap[i].0
    ensures LanguageMap[i].1 != ""
  {
    var key := LanguageMap[i].0;
    assert forall k :: 0 <= k < |key| ==> 'a' <= key[k] <= 'z';
    assert forall k :: 0 <= k < |key| ==> Lower(key)[k] == key[k];
  }

  /** Each extension of the table, after any prefix and a dot, is detected as its entry's language. */
  lemma EveryEntryDetected(prefix: string, i: nat)
    requires i < |LanguageMap|
    ensures GetLanguageFromFilename(prefix + "." + LanguageMap[i].0) == LanguageMap[i].1
  {
    LanguageMapPlain(i);
    LanguageMapDistinct();
    ExtensionAfterLastDot(prefix, LanguageMap[i].0);
    LanguageInEntry(LanguageMap, i);
  }

  /** Each extension of the table, as a whole name without a dot (`c`, `go`), is detected as its entry's language. */
  lemma EveryKeyAsName(i: nat)
    requires i < |LanguageMap|
    ensures GetLanguageFromFilename(LanguageMap[i].0) == LanguageMap[i].1
  {
    LanguageMapPlain(i);
    LanguageMapDistinct();
    ExtensionOfWholeName(LanguageMap[i].0);
    LanguageInEntry(LanguageMap, i);
  }

  /** An empty name and a name ending in a dot have no extension, and are plaintext. */
  lemma NoExtension(prefix: string)
    ensures GetLanguageFromFilename("") == Fallback
    ensures GetLanguageFromFilename(prefix + ".") == Fallback
  {
    ExtensionOfWholeName("");
    ExtensionAfterLastDot(prefix, "");
    assert prefix + "." + "" == prefix + ".";
    assert forall i :: 0 <= i < |LanguageMap| ==> |LanguageMap[i].0| > 0;
  }
}
