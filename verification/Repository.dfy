/** Templates: loading a directory tree, looking templates up, and listing them. */
module Repository {
  import opened Prelude
  import opened Notification
  import FrontMatter

  const DEFAULT_ID := "default"

  datatype Template = Template(
    id: string, typ: string, name: string, subject: string, body: string, isDefault: bool)

  /** Templates by notification type and ID. */
  type Index = map<string, map<string, Template>>

  datatype LookupError = TemplateNotFound | NoDefaultTemplate

  // ----------------------------------------------------------------- lookup

  function Get(index: Index, typ: string, id: string): Result<Template, LookupError> {
    if typ in index && id in index[typ] then Success(index[typ][id]) else Failure(TemplateNotFound)
  }

  function GetDefault(index: Index, typ: string): Result<Template, LookupError> {
    if typ in index && DEFAULT_ID in index[typ] then Success(index[typ][DEFAULT_ID]) else Failure(NoDefaultTemplate)
  }

  /** An empty ID asks for the default template of the type. */
  function Resolve(index: Index, id: string, typ: string): Result<Template, LookupError> {
    if id == "" then GetDefault(index, typ) else Get(index, typ, id)
  }

  /** What a lookup gives, in terms of the index: the template filed under the ID asked
      for, or under "default" if none was; and which error if there is none. */
  lemma ResolvedByIndex(index: Index, id: string, typ: string)
    ensures var wanted := if id == "" then "default" else id;
      Resolve(index, id, typ) ==
        if typ in index && wanted in index[typ] then Success(index[typ][wanted])
        else Failure(if id == "" then NoDefaultTemplate else TemplateNotFound)
  {
  }

  /** Every template is filed under its own type and its own non-empty ID. */
  ghost predicate WellFiled(index: Index) {
    forall typ :: typ in index ==> ValidType(typ) && TypeFiled(index[typ], typ)
  }

  ghost predicate TypeFiled(byId: map<string, Template>, typ: string) {
    forall id :: id in byId ==> FiledAs(byId[id], typ, id)
  }

  ghost predicate FiledAs(t: Template, typ: string, id: string) {
    t.typ == typ && t.id == id && id != "" && t.name != "" && t.isDefault == (id == DEFAULT_ID)
  }

  /** Stamping the ID of a resolved template pins it: asking again by that ID
      gives the same template, also when the first request relied on the default. */
  lemma ResolvedIdPins(index: Index, id: string, typ: string)
    requires WellFiled(index)
    ensures var r := Resolve(index, id, typ);
      r.Success? ==> r.value.id != "" && r.value.typ == typ && Resolve(index, r.value.id, typ) == r
  {
    assert typ in index && DEFAULT_ID in index[typ] ==> FiledAs(index[typ][DEFAULT_ID], typ, DEFAULT_ID);
    assert typ in index && id in index[typ] ==> FiledAs(index[typ][id], typ, id);
  }

  // ---------------------------------------------------------------- loading

  datatype Meta = Meta(name: string, subject: string)

  /** A file of a type directory; no content stands for a file that cannot be read. */
  datatype File = File(name: string, isDir: bool, content: Option<string>)

  /** An entry of the root directory; no files stands for one that cannot be listed. */
  datatype Entry = Entry(name: string, isDir: bool, files: Option<seq<File>>)

  datatype LoadError = UnknownType | Unreadable | BadFrontMatter

  /** Position of the last dot before `n`, or `n` itself when there is none. */
  function StemEnd(name: string, n: nat): (r: nat)
    requires n <= |name|
    ensures r <= n
    ensures r < n ==> name[r] == '.'
    ensures '.' in name[..n] <==> r < n
    ensures '.' !in name[..n][if r < n then r + 1 else 0..]
  {
    if n == 0 then 0
    else if name[n - 1] == '.' then n - 1
    else
      var r := StemEnd(name, n - 1);
      assert name[..n] == name[..n - 1] + [name[n - 1]];
      if r < n - 1 then r else n
  }

  /** The file name without its extension. */
  function Stem(name: string): string {
    name[..StemEnd(name, |name|)]
  }

  predicate Hidden(name: string) {
    "." <= name
  }

  /** Directories and hidden files are passed over. */
  predicate Eligible(f: File) {
    !f.isDir && !Hidden(f.name)
  }

  /** `yaml` decodes a front matter block. */
  function LoadTemplate(yaml: string -> Option<Meta>, typ: string, f: File): Result<Template, LoadError> {
    if f.content.None? then Failure(Unreadable)
    else
      var split := FrontMatter.SplitRaw(f.content.value);
      if split.Unclosed? || (split.Parts? && yaml(split.header).None?) then Failure(BadFrontMatter)
      else
        var meta := if split.Parts? then yaml(split.header).value else Meta("", "");
        var id := Stem(f.name);
        var name := if meta.name == "" then id else meta.name;
        Success(Template(id, typ, name, meta.subject, split.body, id == DEFAULT_ID))
  }

  /** The ID is the file name up to its last dot, or all of it. */
  lemma StemOf(name: string, ext: string)
    requires '.' !in ext
    ensures Stem(name + "." + ext) == name
    ensures '.' !in name ==> Stem(name) == name
  {
    var full := name + "." + ext;
    var end := StemEnd(full, |full|);
    assert full[..|full|] == full && full[|name|] == '.';
    assert name[..|name|] == name;
    forall k | |name| < k < |full| ensures full[k] != '.' {
      assert full[k] == ext[k - |name| - 1];
    }
    forall k | end < k < |full| ensures full[k] != '.' {
      assert full[k] == full[end + 1..][k - end - 1];
    }
    assert full[..|name|] == name;
  }

  /** Sub-directories and names that begin with a dot are passed over. */
  lemma PassedOver(f: File, e: Entry)
    ensures Eligible(f) <==> !f.isDir && (f.name == "" || f.name[0] != '.')
    ensures IsTypeDir(e) <==> e.isDir && (e.name == "" || e.name[0] != '.')
  {
  }

  /** A file without front matter is all body, named by its ID. */
  lemma PlainFileLoads(yaml: string -> Option<Meta>, typ: string, f: File)
    ensures f.content.None? ==> LoadTemplate(yaml, typ, f) == Failure(Unreadable)
    ensures f.content.Some? && !("---\n" <= f.content.value) ==>
      var id := Stem(f.name);
      LoadTemplate(yaml, typ, f) == Success(Template(id, typ, id, "", f.content.value, id == "default"))
    ensures f.content.Some? && "---\n" <= f.content.value && !FrontMatter.Closes(f.content.value[4..]) ==>
      LoadTemplate(yaml, typ, f) == Failure(BadFrontMatter)
  {
    if f.content.Some? { FrontMatter.RefusedOnlyUnclosed(f.content.value); }
  }

  /** A file with front matter takes its name, if there is one, and its subject from the
      header, and what follows the delimiter line is its body. */
  lemma HeadedFileLoads(yaml: string -> Option<Meta>, typ: string, f: File, y: string, rest: string)
    requires f.content == Some("---\n" + y + "\n---" + rest) && !FrontMatter.Closes(y)
    ensures yaml(y).None? ==> LoadTemplate(yaml, typ, f) == Failure(BadFrontMatter)
    ensures yaml(y).Some? ==>
      var id := Stem(f.name);
      var meta := yaml(y).value;
      var body := if "\n" <= rest then rest[1..] else rest;
      LoadTemplate(yaml, typ, f) ==
        Success(Template(id, typ, if meta.name != "" then meta.name else id, meta.subject, body, id == "default"))
  {
    FrontMatter.ClosedSplits(y, rest);
  }

  type Loader = File -> Result<Template, LoadError>

  function LoaderOf(yaml: string -> Option<Meta>, typ: string): Loader {
    (f: File) => LoadTemplate(yaml, typ, f)
  }

  /** A file that is passed over loads trivially. */
  predicate Loads(load: Loader, f: File) {
    Eligible(f) ==> load(f).Success?
  }

  /** Directory entries have a name. */
  ghost predicate Named(files: seq<File>) {
    forall k :: 0 <= k < |files| ==> files[k].name != ""
  }

  /** What loading the first `n` files into a type leaves under that type: the
      eligible files by stem, a later file taking over the stem of an earlier one. */
  ghost predicate Files(load: Loader, files: seq<File>, n: nat, byId: map<string, Template>)
    requires n <= |files|
  {
    && (forall id :: id in byId ==> LoadedFrom(load, files, n, id, byId[id]))
    && (forall k :: 0 <= k < n ==> Loads(load, files[k]) && (Eligible(files[k]) ==> Stem(files[k].name) in byId))
  }

  ghost predicate LoadedFrom(load: Loader, files: seq<File>, n: nat, id: string, t: Template)
    requires n <= |files|
  {
    exists k :: 0 <= k < n && LastWithStem(files, n, k, id) && load(files[k]) == Success(t)
  }

  ghost predicate LastWithStem(files: seq<File>, n: nat, k: nat, id: string)
    requires k < n <= |files|
  {
    && Eligible(files[k]) && Stem(files[k].name) == id
    && forall j :: k < j < n && Eligible(files[j]) ==> Stem(files[j].name) != id
  }

  /** Nothing is filed differently under other types. */
  ghost predicate SameBut(now: Index, was: Index, typ: string) {
    forall t :: t != typ ==> (t in now <==> t in was) && (t in was ==> now[t] == was[t])
  }

  predicate IsTypeDir(e: Entry) {
    e.isDir && !Hidden(e.name)
  }

  ghost predicate DirLoaded(yaml: string -> Option<Meta>, e: Entry, index: Index) {
    && ValidType(e.name) && e.files.Some? && e.name in index
    && Files(LoaderOf(yaml, e.name), e.files.value, |e.files.value|, index[e.name])
  }

  /** A type directory that loads. */
  ghost predicate Loadable(yaml: string -> Option<Meta>, e: Entry) {
    && ValidType(e.name) && e.files.Some?
    && forall k :: 0 <= k < |e.files.value| ==> Loads(LoaderOf(yaml, e.name), e.files.value[k])
  }

  /** What the loader makes of a file is to be filed by the stem of its name. */
  ghost predicate FilesWell(load: Loader, typ: string) {
    forall f: File :: load(f).Success? && Stem(f.name) != "" ==>
      load(f).value.id == Stem(f.name) && FiledAs(load(f).value, typ, Stem(f.name))
  }

  lemma LoaderFilesWell(yaml: string -> Option<Meta>, typ: string)
    ensures FilesWell(LoaderOf(yaml, typ), typ)
  {
  }

  lemma StemIsNamed(name: string)
    requires name != "" && !Hidden(name)
    ensures Stem(name) != ""
  {
    assert name[0] != '.';
  }

  class FileRepository {
    var templates: Index

    constructor ()
      ensures templates == map[]
    {
      templates := map[];
    }

    /** Files the next file of a type directory, or passes it over. */
    method LoadFile(load: Loader, typ: string, files: seq<File>, n: nat) returns (err: Option<LoadError>)
      requires n < |files| && Named(files) && FilesWell(load, typ)
      requires typ in templates && TypeFiled(templates[typ], typ) && Files(load, files, n, templates[typ])
      modifies this
      ensures typ in templates && SameBut(templates, old(templates), typ)
      ensures TypeFiled(templates[typ], typ)
      ensures err.Some? ==> !Loads(load, files[n])
      ensures err.None? ==> Files(load, files, n + 1, templates[typ])
    {
      ghost var was := templates[typ];
      var f := files[n];
      err := None;
      if Eligible(f) {
        var loaded := load(f);
        if loaded.Failure? {
          return Some(loaded.error);
        }
        StemIsNamed(f.name);
        templates := templates[typ := templates[typ][loaded.value.id := loaded.value]];
      }
      FilesGrow(load, files, n, was, templates[typ]);
    }

    /** Files the templates of one type directory; fails only on an eligible file
        that does not load. */
    method LoadTypeDir(yaml: string -> Option<Meta>, typ: string, files: seq<File>) returns (err: Option<LoadError>)
      requires ValidType(typ) && Named(files) && WellFiled(templates)
      modifies this
      ensures WellFiled(templates)
      ensures typ in templates && SameBut(templates, old(templates), typ)
      ensures err.None? ==> Files(LoaderOf(yaml, typ), files, |files|, templates[typ])
      ensures err.Some? ==> exists k :: 0 <= k < |files| && !Loads(LoaderOf(yaml, typ), files[k])
    {
      var load := LoaderOf(yaml, typ);
      LoaderFilesWell(yaml, typ);
      templates := templates[typ := map[]];
      err := None;
      for i := 0 to |files|
        invariant typ in templates && SameBut(templates, old(templates), typ)
        invariant TypeFiled(templates[typ], typ)
        invariant Files(load, files, i, templates[typ]) && err.None?
      {
        err := LoadFile(load, typ, files, i);
        if err.Some? { return; }
      }
    }

    /** Loads every type directory of the root, no entries standing for a root that
        cannot be listed; fails on the first directory of unknown type, unreadable
        entry or malformed front matter. */
    method Load(yaml: string -> Option<Meta>, root: Option<seq<Entry>>) returns (err: Option<LoadError>)
      requires templates == map[]
      requires root.Some? ==> forall e :: e in root.value && e.files.Some? ==> Named(e.files.value)
      requires root.Some? ==> forall i, j :: 0 <= i < j < |root.value| ==> root.value[i].name != root.value[j].name
      modifies this
      ensures WellFiled(templates)
      ensures err.None? <==> root.Some? && forall e :: e in root.value && IsTypeDir(e) ==> Loadable(yaml, e)
      ensures err.None? ==> forall e :: e in root.value && IsTypeDir(e) ==> DirLoaded(yaml, e, templates)
      ensures err.None? ==> forall t :: t in templates ==> exists e :: e in root.value && IsTypeDir(e) && e.name == t
    {
      if root.None? { return Some(Unreadable); }
      var entries := root.value;
      err := None;
      for i := 0 to |entries|
        invariant WellFiled(templates) && err.None?
        invariant forall k :: 0 <= k < i && IsTypeDir(entries[k]) ==> DirLoaded(yaml, entries[k], templates)
        invariant forall k :: 0 <= k < i && IsTypeDir(entries[k]) ==> Loadable(yaml, entries[k])
        invariant forall t :: t in templates ==> exists k :: 0 <= k < i && IsTypeDir(entries[k]) && entries[k].name == t
      {
        var e := entries[i];
        assert e in entries;
        if IsTypeDir(e) {
          if !ValidType(e.name) { return Some(UnknownType); }
          if e.files.None? { return Some(Unreadable); }
          err := LoadTypeDir(yaml, e.name, e.files.value);
          if err.Some? {
            assert !Loadable(yaml, e);
            return;
          }
        }
      }
    }

    /** All templates, in the order of type and then ID. */
    method List() returns (listed: seq<Template>)
      requires WellFiled(templates)
      ensures IsListing(templates, listed)
    {
      listed := [];
      var types := templates.Keys;
      while types != {}
        invariant types <= templates.Keys
        invariant Ascending(listed)
        invariant forall t :: t in listed <==> t.typ in templates.Keys - types && Holds(templates, t)
      {
        var typ :| typ in types;
        types := types - {typ};
        var ids := templates[typ].Keys;
        while ids != {}
          invariant ids <= templates[typ].Keys
          invariant Ascending(listed)
          invariant forall t :: t in listed <==> Listed(templates, types, typ, ids, t)
        {
          var id :| id in ids;
          ids := ids - {id};
          var t := templates[typ][id];
          assert FiledAs(t, typ, id);
          listed := Insert(listed, t);
        }
      }
    }
  }

  /** The template is the one filed under its own type and ID. */
  ghost predicate Holds(index: Index, t: Template) {
    t.typ in index && t.id in index[t.typ] && index[t.typ][t.id] == t
  }

  /** Listed so far: whole types are done except those left and `typ`, whose
      IDs are done except those left. */
  ghost predicate Listed(index: Index, typesLeft: set<string>, typ: string, idsLeft: set<string>, t: Template) {
    Holds(index, t) && t.typ !in typesLeft && (t.typ == typ ==> t.id !in idsLeft)
  }

  /** A file that another one does not take over stays. */
  lemma StaysLoaded(load: Loader, files: seq<File>, n: nat, id: string, t: Template)
    requires n < |files| && LoadedFrom(load, files, n, id, t)
    requires Eligible(files[n]) ==> Stem(files[n].name) != id
    ensures LoadedFrom(load, files, n + 1, id, t)
  {
    var k :| 0 <= k < n && LastWithStem(files, n, k, id) && load(files[k]) == Success(t);
    assert LastWithStem(files, n + 1, k, id);
  }

  lemma NewlyLoaded(load: Loader, files: seq<File>, n: nat, t: Template)
    requires n < |files| && Eligible(files[n]) && load(files[n]) == Success(t)
    ensures LoadedFrom(load, files, n + 1, Stem(files[n].name), t)
  {
    assert LastWithStem(files, n + 1, n, Stem(files[n].name));
  }

  lemma FilesGrow(load: Loader, files: seq<File>, n: nat, was: map<string, Template>, now: map<string, Template>)
    requires n < |files| && Files(load, files, n, was) && Loads(load, files[n])
    requires now == if Eligible(files[n]) then was[Stem(files[n].name) := load(files[n]).value] else was
    ensures Files(load, files, n + 1, now)
  {
    forall id | id in now ensures LoadedFrom(load, files, n + 1, id, now[id]) {
      if Eligible(files[n]) && id == Stem(files[n].name) {
        NewlyLoaded(load, files, n, now[id]);
      } else {
        StaysLoaded(load, files, n, id, was[id]);
      }
    }
  }

  // ---------------------------------------------------------------- listing

  /** Byte order on strings, which is code point order on their runes. */
  predicate Below(a: string, b: string) {
    b != "" && (a == "" || a[0] < b[0] || (a[0] == b[0] && Below(a[1..], b[1..])))
  }

  predicate Before(a: Template, b: Template) {
    if a.typ != b.typ then Below(a.typ, b.typ) else Below(a.id, b.id)
  }

  ghost predicate Ascending(ts: seq<Template>) {
    forall i, j :: 0 <= i < j < |ts| ==> Before(ts[i], ts[j])
  }

  /** A listing: each filed template once, in strictly increasing order. */
  ghost predicate IsListing(index: Index, ts: seq<Template>) {
    Ascending(ts) && forall t :: t in ts <==> Holds(index, t)
  }

  lemma {:induction false} BelowOrders(a: string, b: string, c: string)
    ensures !Below(a, a)
    ensures a == b || Below(a, b) || Below(b, a)
    ensures Below(a, b) && Below(b, c) ==> Below(a, c)
  {
    if a != "" { BelowOrders(a[1..], if b == "" then "" else b[1..], if c == "" then "" else c[1..]); }
    if a != "" && b != "" && a[0] == b[0] && a[1..] == b[1..] {
      assert a == [a[0]] + a[1..] && b == [b[0]] + b[1..];
    }
  }

  /** Where the two differ first, or where the shorter one ends. */
  ghost predicate FirstDifferAt(a: string, b: string, k: nat) {
    k <= |a| && k < |b| && a[..k] == b[..k] && (k == |a| || a[k] < b[k])
  }

  /** The order is the lexicographic one. */
  lemma {:induction false} BelowIsLexicographic(a: string, b: string)
    ensures Below(a, b) <==> exists k: nat :: FirstDifferAt(a, b, k)
  {
    if b == "" {
    } else if a == "" || a[0] < b[0] {
      assert FirstDifferAt(a, b, 0);
    } else {
      BelowIsLexicographic(a[1..], b[1..]);
      if a[0] == b[0] {
        if k: nat :| FirstDifferAt(a[1..], b[1..], k) {
          assert a[..k + 1] == [a[0]] + a[1..][..k] && b[..k + 1] == [b[0]] + b[1..][..k];
          assert FirstDifferAt(a, b, k + 1);
        }
        if k: nat :| FirstDifferAt(a, b, k) {
          assert k > 0;
          assert a[1..][..k - 1] == a[..k][1..] && b[1..][..k - 1] == b[..k][1..];
          assert FirstDifferAt(a[1..], b[1..], k - 1);
        }
      } else {
        forall k | 0 < k <= |a| && k < |b| ensures a[..k] != b[..k] {
          assert a[..k][0] == a[0] && b[..k][0] == b[0];
        }
      }
    }
  }

  /** In a listing types ascend, and IDs within a type. */
  lemma ListingOrder(index: Index, ts: seq<Template>, i: nat, j: nat)
    requires IsListing(index, ts) && i < j < |ts|
    ensures ts[i].typ == ts[j].typ || exists k: nat :: FirstDifferAt(ts[i].typ, ts[j].typ, k)
    ensures ts[i].typ == ts[j].typ ==> exists k: nat :: FirstDifferAt(ts[i].id, ts[j].id, k)
  {
    BelowIsLexicographic(ts[i].typ, ts[j].typ);
    BelowIsLexicographic(ts[i].id, ts[j].id);
  }

  lemma BeforeOrders(a: Template, b: Template, c: Template)
    ensures !Before(a, a)
    ensures (a.typ == b.typ && a.id == b.id) || Before(a, b) || Before(b, a)
    ensures Before(a, b) && Before(b, c) ==> Before(a, c)
  {
    BelowOrders(a.typ, b.typ, c.typ);
    BelowOrders(b.typ, c.typ, a.typ);
    BelowOrders(a.id, b.id, c.id);
  }

  /** Puts a template of a new key in its place in an ordered listing. */
  method Insert(ts: seq<Template>, t: Template) returns (r: seq<Template>)
    requires Ascending(ts)
    requires forall u :: u in ts ==> u.typ != t.typ || u.id != t.id
    ensures Ascending(r)
    ensures forall u :: u in r <==> u == t || u in ts
  {
    var i := 0;
    while i < |ts| && Before(ts[i], t)
      invariant 0 <= i <= |ts|
      invariant forall j :: 0 <= j < i ==> Before(ts[j], t)
    {
      i := i + 1;
    }
    assert i < |ts| ==> ts[i] in ts;
    InsertKeepsOrder(ts, t, i);
    r := ts[..i] + [t] + ts[i..];
  }

  lemma InsertKeepsOrder(ts: seq<Template>, t: Template, i: nat)
    requires Ascending(ts) && i <= |ts|
    requires forall j :: 0 <= j < i ==> Before(ts[j], t)
    requires i < |ts| ==> !Before(ts[i], t) && (ts[i].typ != t.typ || ts[i].id != t.id)
    ensures Ascending(ts[..i] + [t] + ts[i..])
    ensures forall u :: u in ts[..i] + [t] + ts[i..] <==> u == t || u in ts
  {
    forall j | i <= j < |ts| ensures Before(t, ts[j]) {
      BeforeOrders(t, ts[i], ts[j]);
      BeforeOrders(ts[i], t, t);
    }
    assert ts == ts[..i] + ts[i..];
  }

  /** A repository has one listing only: neither the iteration order of its maps
      nor the sorting algorithm can be seen in the result. */
  lemma {:induction false} ListingIsUnique(a: seq<Template>, b: seq<Template>)
    requires Ascending(a) && Ascending(b)
    requires forall t :: t in a <==> t in b
    ensures a == b
    decreases |a|
  {
    if a == [] {
      if b != [] { HasMember(b); }
    } else {
      assert a[0] in a && a[0] in b;
      var j :| 0 <= j < |b| && b[j] == a[0];
      assert b[0] in b && b[0] in a;
      var i :| 0 <= i < |a| && a[i] == b[0];
      BeforeOrders(a[0], b[0], a[0]);
      assert i == 0 && j == 0;
      TailMembers(a);
      TailMembers(b);
      ListingIsUnique(a[1..], b[1..]);
    }
  }

  lemma HasMember(ts: seq<Template>)
    requires ts != []
    ensures exists t :: t in ts
  {
    assert ts[0] in ts;
  }

  lemma TailMembers(ts: seq<Template>)
    requires Ascending(ts) && ts != []
    ensures Ascending(ts[1..])
    ensures forall t :: t in ts[1..] <==> t in ts && t != ts[0]
  {
    BeforeOrders(ts[0], ts[0], ts[0]);
    forall t | t in ts && t != ts[0] ensures t in ts[1..] {
      var i :| 0 <= i < |ts| && ts[i] == t;
      assert ts[1..][i - 1] == t;
    }
  }

  function OfType(ts: seq<Template>, typ: string): (r: seq<Template>)
    ensures forall t :: t in r <==> t in ts && t.typ == typ
  {
    if ts == [] then []
    else (if ts[0].typ == typ then [ts[0]] else []) + OfType(ts[1..], typ)
  }

  lemma OfTypeNext(ts: seq<Template>, typ: string, i: nat, r: seq<Template>)
    requires i < |ts|
    ensures r + OfType(ts[i..], typ) == (if ts[i].typ == typ then r + [ts[i]] else r) + OfType(ts[i + 1..], typ)
  {
    assert ts[i..][1..] == ts[i + 1..];
  }

  method FilterType(ts: seq<Template>, typ: string) returns (filtered: seq<Template>)
    ensures filtered == OfType(ts, typ)
  {
    filtered := [];
    for i := 0 to |ts|
      invariant filtered + OfType(ts[i..], typ) == OfType(ts, typ)
    {
      OfTypeNext(ts, typ, i, filtered);
      if ts[i].typ == typ {
        filtered := filtered + [ts[i]];
      }
    }
  }

  /** The listing a client asks for: all templates, or those of one type. */
  method ListFiltered(repo: FileRepository, typeFilter: string) returns (r: seq<Template>)
    requires WellFiled(repo.templates)
    ensures typeFilter == "" ==> IsListing(repo.templates, r)
    ensures typeFilter != "" ==> exists all :: IsListing(repo.templates, all) && r == OfType(all, typeFilter)
  {
    var all := repo.List();
    if typeFilter == "" { return all; }
    r := FilterType(all, typeFilter);
  }

  lemma {:induction false} OfTypeAscends(ts: seq<Template>, typ: string)
    requires Ascending(ts)
    ensures Ascending(OfType(ts, typ))
  {
    if ts != [] {
      TailMembers(ts);
      OfTypeAscends(ts[1..], typ);
      var rest := OfType(ts[1..], typ);
      forall j | 0 <= j < |rest| ensures Before(ts[0], rest[j]) {
        assert rest[j] in ts[1..];
        var k :| 0 <= k < |ts[1..]| && ts[1..][k] == rest[j];
        assert ts[k + 1] == rest[j];
      }
    }
  }

  lemma AscendingConcat(a: seq<Template>, b: seq<Template>, t: string, u: string)
    requires Ascending(a) && Ascending(b) && Below(t, u)
    requires forall x :: x in a ==> x.typ == t || Below(x.typ, t)
    requires forall y :: y in b ==> y.typ == u
    ensures Ascending(a + b)
  {
    forall i, j | 0 <= i < |a| && 0 <= j < |b| ensures Before(a[i], b[j]) {
      assert a[i] in a && b[j] in b;
      BelowOrders(a[i].typ, t, u);
      BelowOrders(u, u, u);
    }
  }

  /** The full listing is the email listing, then push, then sms. */
  lemma ListingByType(index: Index, all: seq<Template>)
    requires WellFiled(index) && IsListing(index, all)
    ensures all == OfType(all, EMAIL) + OfType(all, PUSH) + OfType(all, SMS)
  {
    var e, p, s := OfType(all, EMAIL), OfType(all, PUSH), OfType(all, SMS);
    OfTypeAscends(all, EMAIL);
    OfTypeAscends(all, PUSH);
    OfTypeAscends(all, SMS);
    AscendingConcat(e, p, EMAIL, PUSH);
    AscendingConcat(e + p, s, PUSH, SMS);
    forall t | t in all ensures t in e + p + s {
      assert Holds(index, t);
    }
    ListingIsUnique(all, e + p + s);
  }
}
