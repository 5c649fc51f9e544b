/** The language registry: the fixed table of languages the editor offers, each
    tied to the remote service's language id, and the two first-match lookups. */
module Languages {
  import opened Wrappers

  /** One supported language (`displayLabel` is the source's `label`, a Dafny
      keyword). `defaultCode` is the starter snippet shown in the
      editor; no operation reads it, so the table keeps only its first line. */
  datatype Language = Language(
    id: int,
    name: string,
    displayLabel: string,
    monacoMode: string,
    defaultCode: string)

  const Python := Language(71, "Python", "Python (3.10)", "python", "# Python Code\n")
  const C := Language(50, "C", "C (GCC 9.2.0)", "c", "// C Code\n")
  const Cpp := Language(54, "C++", "C++ (GCC 9.2.0)", "cpp", "// C++ Code\n")
  const Java := Language(62, "Java", "Java (OpenJDK 13.0.1)", "java", "// Java Code\n")
  const JavaScript := Language(63, "JavaScript", "JavaScript (Node.js 12.14.0)", "javascript", "// JavaScript Code\n")

  /** The registry, in declaration order (lookups return the first match). */
  const Table: seq<Language> := [Python, C, Cpp, Java, JavaScript]

  /** Index of the first element satisfying `p`, or `|s|` when there is none:
      the search `Array.prototype.find` performs. */
  function FindIndex<T>(s: seq<T>, p: T -> bool): (k: nat)
    ensures k <= |s|
    ensures forall j :: 0 <= j < k ==> !p(s[j])
    ensures k < |s| ==> p(s[k])
  {
    if |s| == 0 then 0
    else if p(s[0]) then 0
    else 1 + FindIndex(s[1..], p)
  }

  /** The first element satisfying `p`, absent when none does. */
  function Find<T>(s: seq<T>, p: T -> bool): (r: Option<T>)
    ensures r.None? <==> forall j :: 0 <= j < |s| ==> !p(s[j])
    ensures r.Some? ==> exists k :: 0 <= k < |s| && s[k] == r.value && p(s[k])
                          && forall j :: 0 <= j < k ==> !p(s[j])
  {
    var k := FindIndex(s, p);
    if k < |s| then Some(s[k]) else None
  }

  /** When exactly one position satisfies `p`, the search returns that element. */
  lemma FindUnique<T>(s: seq<T>, p: T -> bool, k: nat)
    requires k < |s| && p(s[k])
    requires forall j :: 0 <= j < |s| && j != k ==> !p(s[j])
    ensures Find(s, p) == Some(s[k])
  {
  }

  function GetLanguageById(id: int): (r: Option<Language>)
    ensures r.Some? ==> r.value in Table && r.value.id == id
    ensures r.None? <==> forall j :: 0 <= j < |Table| ==> Table[j].id != id
  {
    Find(Table, (l: Language) => l.id == id)
  }

  function GetLanguageByName(name: string): (r: Option<Language>)
    ensures r.Some? ==> r.value in Table && r.value.name == name
    ensures r.None? <==> forall j :: 0 <= j < |Table| ==> Table[j].name != name
  {
    Find(Table, (l: Language) => l.name == name)
  }

  /** No two entries of the table share an id. */
  predicate DistinctIds(s: seq<Language>) {
    forall i, j :: 0 <= i < j < |s| ==> s[i].id != s[j].id
  }

  /** No two entries of the table share a name. */
  predicate DistinctNames(s: seq<Language>) {
    forall i, j :: 0 <= i < j < |s| ==> s[i].name != s[j].name
  }

  lemma TableKeysDistinct()
    ensures DistinctIds(Table) && DistinctNames(Table)
  {
  }

  /** Lookup by id is the exact inverse of table membership: it finds `e`
      precisely when `e` is an entry carrying the queried id. */
  lemma GetLanguageByIdExact(id: int, e: Language)
    ensures GetLanguageById(id) == Some(e) <==> e in Table && e.id == id
  {
    TableKeysDistinct();
    if e in Table && e.id == id {
      var k :| 0 <= k < |Table| && Table[k] == e;
      FindUnique(Table, (l: Language) => l.id == id, k);
    }
  }

  /** Lookup by name is the exact inverse of table membership. */
  lemma GetLanguageByNameExact(name: string, e: Language)
    ensures GetLanguageByName(name) == Some(e) <==> e in Table && e.name == name
  {
    TableKeysDistinct();
    if e in Table && e.name == name {
      var k :| 0 <= k < |Table| && Table[k] == e;
      FindUnique(Table, (l: Language) => l.name == name, k);
    }
  }

  /** Every entry is found again from its own id and from its own name. */
  lemma LookupsRoundTrip(e: Language)
    requires e in Table
    ensures GetLanguageById(e.id) == Some(e)
    ensures GetLanguageByName(e.name) == Some(e)
  {
    GetLanguageByIdExact(e.id, e);
    GetLanguageByNameExact(e.name, e);
  }

  /** Id 71 is Python, edited in Monaco's "python" mode; id 9999 is unknown. */
  lemma LookupExamples()
    ensures GetLanguageById(71) == Some(Python) && Python.monacoMode == "python"
    ensures GetLanguageById(9999) == None
    ensures GetLanguageByName("Cobol") == None
  {
    LookupsRoundTrip(Python);
  }
}
