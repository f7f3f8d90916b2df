/**
 * The code generator's schema merge: every definition of every schema file is re-keyed under its title in
 * one document, and references are rewritten accordingly. Meaning is unfolding `$ref`s to any depth.
 */
module SchemaMerge {
  import opened Wire

  // ----- documents

  datatype Json =
    | Null
    | Bool(b: bool)
    | Num(n: int)
    | Str(s: string)
    | Arr(items: seq<Json>)
    | Obj(fields: seq<Field>)

  datatype Field = Field(key: string, value: Json)

  type Defs = map<string, Json>

  const PREFIX := "#/$defs/"

  function Get(fs: seq<Field>, key: string): Option<Json> {
    if fs == [] then None else if fs[0].key == key then Some(fs[0].value) else Get(fs[1..], key)
  }

  function Drop(fs: seq<Field>, keys: set<string>): seq<Field> {
    if fs == [] then []
    else if fs[0].key in keys then Drop(fs[1..], keys)
    else [fs[0]] + Drop(fs[1..], keys)
  }

  function StripTitle(fs: seq<Field>): seq<Field> { Drop(fs, {"title"}) }

  /** `model["title"] = title` */
  function SetTitle(fs: seq<Field>, title: string): seq<Field> {
    if fs == [] then [Field("title", Str(title))]
    else if fs[0].key == "title" then [Field("title", Str(title))] + fs[1..]
    else [fs[0]] + SetTitle(fs[1..], title)
  }

  // ----- references

  predicate LocalRef(f: Field) { f.key == "$ref" && f.value.Str? && PREFIX <= f.value.s }

  function RefName(f: Field): string
    requires LocalRef(f)
  {
    f.value.s[|PREFIX|..]
  }

  function RefTo(name: string): Field { Field("$ref", Str(PREFIX + name)) }

  /** Every string `$ref` names one of `names`. */
  predicate RefsIn(j: Json, names: set<string>)
    decreases j, 1
  {
    match j
    case Obj(fs) => FieldsRefsIn(fs, names)
    case Arr(js) => ItemsRefsIn(js, names)
    case _ => true
  }

  predicate FieldsRefsIn(fs: seq<Field>, names: set<string>)
    decreases fs, 0
  {
    fs == [] ||
    (&& (if fs[0].key == "$ref" && fs[0].value.Str? then LocalRef(fs[0]) && RefName(fs[0]) in names
         else RefsIn(fs[0].value, names))
     && FieldsRefsIn(fs[1..], names))
  }

  predicate ItemsRefsIn(js: seq<Json>, names: set<string>)
    decreases js, 0
  {
    js == [] || (RefsIn(js[0], names) && ItemsRefsIn(js[1..], names))
  }

  type Rename = map<string, string>

  function Target(ren: Rename, name: string): string { if name in ren then ren[name] else name }

  /** The rewriter. */
  function Walk(j: Json, ren: Rename): Json
    decreases j, 1
  {
    match j
    case Obj(fs) => Obj(WalkFields(fs, ren))
    case Arr(js) => Arr(WalkItems(js, ren))
    case _ => j
  }

  function WalkFields(fs: seq<Field>, ren: Rename): seq<Field>
    decreases fs, 0
  {
    if fs == [] then []
    else
      [if LocalRef(fs[0]) then RefTo(Target(ren, RefName(fs[0]))) else Field(fs[0].key, Walk(fs[0].value, ren))]
      + WalkFields(fs[1..], ren)
  }

  function WalkItems(js: seq<Json>, ren: Rename): seq<Json>
    decreases js, 0
  {
    if js == [] then [] else [Walk(js[0], ren)] + WalkItems(js[1..], ren)
  }

  // ----- meaning

  /**
   * `j` with every reference replaced by what it refers to, `n` levels deep. A definition's own top-level
   * title is not part of its meaning; a reference to nothing is.
   */
  function Unfold(n: nat, defs: Defs, j: Json): Json
    decreases n, 0, j, 1
  {
    match j
    case Obj(fs) => Obj(UnfoldFields(n, defs, fs))
    case Arr(js) => Arr(UnfoldItems(n, defs, js))
    case _ => j
  }

  function Meaning(n: nat, defs: Defs, def: Json): Json
    decreases n, 1
  {
    match def
    case Obj(fs) => Obj(UnfoldFields(n, defs, StripTitle(fs)))
    case _ => Unfold(n, defs, def)
  }

  function RefMeaning(n: nat, defs: Defs, name: string): Json
    decreases n, 2
  {
    if name in defs then Meaning(n, defs, defs[name]) else Bool(false)
  }

  function UnfoldFields(n: nat, defs: Defs, fs: seq<Field>): seq<Field>
    decreases n, 0, fs, 0
  {
    if fs == [] then []
    else
      [Field(fs[0].key,
             if LocalRef(fs[0]) then (if n == 0 then Null else RefMeaning(n - 1, defs, RefName(fs[0])))
             else Unfold(n, defs, fs[0].value))]
      + UnfoldFields(n, defs, fs[1..])
  }

  function UnfoldItems(n: nat, defs: Defs, js: seq<Json>): seq<Json>
    decreases n, 0, js, 0
  {
    if js == [] then [] else [Unfold(n, defs, js[0])] + UnfoldItems(n, defs, js[1..])
  }

  // ----- rewriting preserves meaning

  /** Below depth `n`, each name means in `own` what its new name means in `merged`. */
  ghost predicate Agree(n: nat, own: Defs, merged: Defs, ren: Rename) {
    forall k, x :: 0 <= k < n && x in own ==> RefMeaning(k, own, x) == RefMeaning(k, merged, Target(ren, x))
  }

  lemma {:induction false} UnfoldWalk(n: nat, own: Defs, merged: Defs, ren: Rename, j: Json)
    requires RefsIn(j, own.Keys) && Agree(n, own, merged, ren)
    ensures Unfold(n, own, j) == Unfold(n, merged, Walk(j, ren))
    decreases j, 1
  {
    match j
    case Obj(fs) => UnfoldWalkFields(n, own, merged, ren, fs);
    case Arr(js) => UnfoldWalkItems(n, own, merged, ren, js);
    case _ =>
  }

  lemma {:induction false} UnfoldWalkFields(n: nat, own: Defs, merged: Defs, ren: Rename, fs: seq<Field>)
    requires FieldsRefsIn(fs, own.Keys) && Agree(n, own, merged, ren)
    ensures UnfoldFields(n, own, fs) == UnfoldFields(n, merged, WalkFields(fs, ren))
    decreases fs, 0
  {
    if fs != [] {
      UnfoldWalkFields(n, own, merged, ren, fs[1..]);
      var ws := WalkFields(fs, ren);
      assert ws[1..] == WalkFields(fs[1..], ren);
      if LocalRef(fs[0]) {
        assert RefName(ws[0]) == Target(ren, RefName(fs[0]));
        assert n > 0 ==> RefMeaning(n - 1, own, RefName(fs[0])) == RefMeaning(n - 1, merged, RefName(ws[0]));
      } else {
        UnfoldWalk(n, own, merged, ren, fs[0].value);
        assert !LocalRef(ws[0]);
      }
    }
  }

  lemma {:induction false} UnfoldWalkItems(n: nat, own: Defs, merged: Defs, ren: Rename, js: seq<Json>)
    requires ItemsRefsIn(js, own.Keys) && Agree(n, own, merged, ren)
    ensures UnfoldItems(n, own, js) == UnfoldItems(n, merged, WalkItems(js, ren))
    decreases js, 0
  {
    if js != [] {
      UnfoldWalk(n, own, merged, ren, js[0]);
      UnfoldWalkItems(n, own, merged, ren, js[1..]);
      assert WalkItems(js, ren)[1..] == WalkItems(js[1..], ren);
    }
  }

  // ----- references after rewriting

  lemma {:induction false} WalkRefs(j: Json, ren: Rename, names: set<string>, titles: set<string>)
    requires RefsIn(j, names) && (forall x :: x in names ==> Target(ren, x) in titles)
    ensures RefsIn(Walk(j, ren), titles)
    decreases j, 1
  {
    match j
    case Obj(fs) => WalkFieldsRefs(fs, ren, names, titles);
    case Arr(js) => WalkItemsRefs(js, ren, names, titles);
    case _ =>
  }

  lemma {:induction false} WalkFieldsRefs(fs: seq<Field>, ren: Rename, names: set<string>, titles: set<string>)
    requires FieldsRefsIn(fs, names) && (forall x :: x in names ==> Target(ren, x) in titles)
    ensures FieldsRefsIn(WalkFields(fs, ren), titles)
    decreases fs, 0
  {
    if fs != [] {
      WalkFieldsRefs(fs[1..], ren, names, titles);
      var ws := WalkFields(fs, ren);
      assert ws[1..] == WalkFields(fs[1..], ren);
      if LocalRef(fs[0]) {
        assert RefName(ws[0]) == Target(ren, RefName(fs[0]));
      } else {
        WalkRefs(fs[0].value, ren, names, titles);
        assert ws[0].value.Str? ==> fs[0].value.Str?;
      }
    }
  }

  lemma {:induction false} WalkItemsRefs(js: seq<Json>, ren: Rename, names: set<string>, titles: set<string>)
    requires ItemsRefsIn(js, names) && (forall x :: x in names ==> Target(ren, x) in titles)
    ensures ItemsRefsIn(WalkItems(js, ren), titles)
    decreases js, 0
  {
    if js != [] {
      WalkRefs(js[0], ren, names, titles);
      WalkItemsRefs(js[1..], ren, names, titles);
      assert WalkItems(js, ren)[1..] == WalkItems(js[1..], ren);
    }
  }

  // ----- titles

  lemma {:induction false} StripSetTitle(fs: seq<Field>, title: string)
    ensures StripTitle(SetTitle(fs, title)) == StripTitle(fs)
  {
    var ts := SetTitle(fs, title);
    if fs == [] {
      assert ts[1..] == [];
    } else {
      if fs[0].key == "title" {
        assert ts[1..] == fs[1..];
      } else {
        assert ts[1..] == SetTitle(fs[1..], title);
        StripSetTitle(fs[1..], title);
      }
    }
  }

  lemma {:induction false} StripWalk(fs: seq<Field>, ren: Rename)
    ensures StripTitle(WalkFields(fs, ren)) == WalkFields(StripTitle(fs), ren)
  {
    if fs != [] {
      StripWalk(fs[1..], ren);
      var ws, ss := WalkFields(fs, ren), StripTitle(fs);
      assert ws[1..] == WalkFields(fs[1..], ren) && ws[0].key == fs[0].key;
      if fs[0].key != "title" { assert ss[0] == fs[0] && ss[1..] == StripTitle(fs[1..]); }
    }
  }

  lemma {:induction false} DropRefs(fs: seq<Field>, keys: set<string>, names: set<string>)
    requires FieldsRefsIn(fs, names)
    ensures FieldsRefsIn(Drop(fs, keys), names)
  {
    if fs != [] {
      DropRefs(fs[1..], keys, names);
      var ds := Drop(fs, keys);
      if fs[0].key !in keys { assert ds[0] == fs[0] && ds[1..] == Drop(fs[1..], keys); }
    }
  }

  lemma {:induction false} SetTitleRefs(fs: seq<Field>, title: string, names: set<string>)
    requires FieldsRefsIn(fs, names)
    ensures FieldsRefsIn(SetTitle(fs, title), names)
  {
    var ts := SetTitle(fs, title);
    if fs == [] {
      assert ts[1..] == [];
    } else {
      assert ts[1..] == if fs[0].key == "title" then fs[1..] else SetTitle(fs[1..], title);
      if fs[0].key != "title" { SetTitleRefs(fs[1..], title, names); }
    }
  }

  // ----- schema files and what they contribute

  datatype SchemaFile = SchemaFile(stem: string, fields: seq<Field>)

  function TitleText(fs: seq<Field>): Option<string> {
    match Get(fs, "title")
    case Some(Str(s)) => if s == "" then None else Some(s)
    case _ => None
  }

  /** The file's own title, or its stem when it has none. */
  function FileTitle(f: SchemaFile): (t: string)
    ensures match Get(f.fields, "title") case Some(Str(own)) => t == (if own != "" then own else f.stem) case _ => t == f.stem
  {
    if TitleText(f.fields).Some? then TitleText(f.fields).value else f.stem
  }

  function LocalDefs(f: SchemaFile): seq<Field> {
    match Get(f.fields, "$defs")
    case Some(Obj(fs)) => fs
    case _ => []
  }

  function BodyOf(j: Json): seq<Field> { if j.Obj? then j.fields else [] }

  function TitleFor(def: Field, fileTitle: string): string {
    var t := TitleText(BodyOf(def.value));
    if t.Some? then t.value else fileTitle + def.key
  }

  function RenameOf(defs: seq<Field>, fileTitle: string): Rename {
    if defs == [] then map[]
    else RenameOf(defs[1..], fileTitle)[defs[0].key := TitleFor(defs[0], fileTitle)]
  }

  function FileRename(f: SchemaFile): Rename { RenameOf(LocalDefs(f), FileTitle(f)) }

  function DefsOf(defs: seq<Field>): Defs {
    if defs == [] then map[] else DefsOf(defs[1..])[defs[0].key := defs[0].value]
  }

  /** The definitions a file's own references resolve to. */
  function OwnDefs(f: SchemaFile): Defs { DefsOf(LocalDefs(f)) }

  /** A model the merge emits, before rewriting. */
  datatype Item = Item(title: string, body: seq<Field>)

  function DefItems(defs: seq<Field>, fileTitle: string): seq<Item> {
    if defs == [] then []
    else [Item(TitleFor(defs[0], fileTitle), Drop(BodyOf(defs[0].value), {"$defs"}))] + DefItems(defs[1..], fileTitle)
  }

  predicate OneOfFile(f: SchemaFile) {
    LocalDefs(f) != [] && Get(f.fields, "oneOf").Some? && Get(f.fields, "oneOf").value.Arr?
  }

  /** A file's definitions, and then the file itself unless it only chooses between its definitions. */
  function Items(f: SchemaFile): seq<Item> {
    DefItems(LocalDefs(f), FileTitle(f))
    + if OneOfFile(f) then [] else [Item(FileTitle(f), Drop(f.fields, {"$defs", "$schema", "$id"}))]
  }

  function Model(it: Item, ren: Rename): Json { Obj(SetTitle(WalkFields(it.body, ren), it.title)) }

  function MergeItems(merged: Defs, items: seq<Item>, ren: Rename): Defs
    decreases items
  {
    if items == [] then merged
    else
      MergeItems(if items[0].title in merged then merged else merged[items[0].title := Model(items[0], ren)],
                 items[1..], ren)
  }

  function MergeFiles(merged: Defs, files: seq<SchemaFile>): Defs
    decreases files
  {
    if files == [] then merged else MergeFiles(MergeItems(merged, Items(files[0]), FileRename(files[0])), files[1..])
  }

  /** `build_merged_schema`, with its `seen` set. */
  method BuildMergedSchema(files: seq<SchemaFile>) returns (merged: Defs)
    ensures merged == MergeFiles(map[], files)
  {
    merged := map[];
    var seen: set<string> := {};
    var i := 0;
    while i < |files|
      invariant 0 <= i <= |files| && seen == merged.Keys
      invariant MergeFiles(merged, files[i..]) == MergeFiles(map[], files)
    {
      var items, ren := Items(files[i]), FileRename(files[i]);
      ghost var before := merged;
      var k := 0;
      while k < |items|
        invariant 0 <= k <= |items| && seen == merged.Keys
        invariant MergeItems(merged, items[k..], ren) == MergeItems(before, items, ren)
      {
        var title := items[k].title;
        assert items[k..][1..] == items[k + 1..];
        if title !in seen {
          seen := seen + {title};
          merged := merged[title := Model(items[k], ren)];
        }
        k := k + 1;
      }
      assert items[k..] == [];
      assert files[i..][1..] == files[i + 1..];
      i := i + 1;
    }
    assert files[i..] == [];
  }

  // ----- what the merged document holds

  ghost predicate FromItems(items: seq<Item>, ren: Rename, title: string, def: Json) {
    exists k :: 0 <= k < |items| && items[k].title == title && def == Model(items[k], ren)
  }

  ghost predicate FromFiles(files: seq<SchemaFile>, title: string, def: Json) {
    exists i :: 0 <= i < |files| && FromItems(Items(files[i]), FileRename(files[i]), title, def)
  }

  lemma {:induction false} MergeItemsHolds(merged: Defs, items: seq<Item>, ren: Rename)
    ensures var m := MergeItems(merged, items, ren);
      && merged.Keys <= m.Keys && (forall k :: 0 <= k < |items| ==> items[k].title in m)
      && (forall t :: t in m ==> if t in merged then m[t] == merged[t] else FromItems(items, ren, t, m[t]))
    decreases items
  {
    if items != [] {
      var m1 := if items[0].title in merged then merged else merged[items[0].title := Model(items[0], ren)];
      var rest := items[1..];
      MergeItemsHolds(m1, rest, ren);
      var m := MergeItems(merged, items, ren);
      assert m == MergeItems(m1, rest, ren);
      forall k | 0 <= k < |items| ensures items[k].title in m {
        if k > 0 { assert items[k] == rest[k - 1]; }
      }
      forall t | t in m && t !in merged ensures FromItems(items, ren, t, m[t]) {
        if t !in m1 {
          var k :| 0 <= k < |rest| && rest[k].title == t && m[t] == Model(rest[k], ren);
          assert items[k + 1] == rest[k];
        } else {
          assert items[0].title == t && m[t] == Model(items[0], ren);
        }
      }
    }
  }

  ghost predicate HoldsFiles(m: Defs, merged: Defs, files: seq<SchemaFile>) {
    forall t :: t in m ==> if t in merged then m[t] == merged[t] else FromFiles(files, t, m[t])
  }

  ghost predicate NamesFiles(m: Defs, files: seq<SchemaFile>) {
    forall i, k :: 0 <= i < |files| && 0 <= k < |Items(files[i])| ==> Items(files[i])[k].title in m
  }

  lemma FromRest(files: seq<SchemaFile>, t: string, def: Json)
    requires files != [] && FromFiles(files[1..], t, def)
    ensures FromFiles(files, t, def)
  {
    var rest := files[1..];
    var i :| 0 <= i < |rest| && FromItems(Items(rest[i]), FileRename(rest[i]), t, def);
    assert files[i + 1] == rest[i];
  }

  lemma FirstNamed(m: Defs, files: seq<SchemaFile>)
    requires files != [] && NamesFiles(m, files[1..]) && (forall k :: 0 <= k < |Items(files[0])| ==> Items(files[0])[k].title in m)
    ensures NamesFiles(m, files)
  {
    var rest := files[1..];
    forall i, k | 0 <= i < |files| && 0 <= k < |Items(files[i])| ensures Items(files[i])[k].title in m {
      if i > 0 { assert files[i] == rest[i - 1]; }
    }
  }

  lemma FirstHolds(m: Defs, m1: Defs, merged: Defs, files: seq<SchemaFile>)
    requires files != [] && HoldsFiles(m, m1, files[1..]) && merged.Keys <= m1.Keys
    requires forall t :: t in m1 ==> if t in merged then m1[t] == merged[t] else FromItems(Items(files[0]), FileRename(files[0]), t, m1[t])
    ensures HoldsFiles(m, merged, files)
  {
    forall t | t in m ensures if t in merged then m[t] == merged[t] else FromFiles(files, t, m[t]) {
      if t !in m1 { FromRest(files, t, m[t]); }
    }
  }

  lemma {:induction false} MergeFilesHolds(merged: Defs, files: seq<SchemaFile>)
    ensures var m := MergeFiles(merged, files);
      merged.Keys <= m.Keys && NamesFiles(m, files) && HoldsFiles(m, merged, files)
    decreases files
  {
    if files != [] {
      var m1 := MergeItems(merged, Items(files[0]), FileRename(files[0]));
      var m, rest := MergeFiles(merged, files), files[1..];
      MergeItemsHolds(merged, Items(files[0]), FileRename(files[0]));
      MergeFilesHolds(m1, rest);
      assert m == MergeFiles(m1, rest);
      FirstNamed(m, files);
      FirstHolds(m, m1, merged, files);
    }
  }

  // ----- the files the generator is run on

  /** Definitions are objects without definitions of their own, and every reference names one of them. */
  ghost predicate FileOk(f: SchemaFile) {
    && (forall k :: 0 <= k < |LocalDefs(f)| ==> DefOk(LocalDefs(f)[k], OwnDefs(f).Keys))
    && FieldsRefsIn(Drop(f.fields, {"$defs", "$schema", "$id"}), OwnDefs(f).Keys)
  }

  predicate DefOk(def: Field, names: set<string>) {
    def.value.Obj? && Drop(def.value.fields, {"$defs"}) == def.value.fields && FieldsRefsIn(def.value.fields, names)
  }

  ghost predicate FilesOk(files: seq<SchemaFile>) { forall i :: 0 <= i < |files| ==> FileOk(files[i]) }

  lemma {:induction false} DefItemsAt(defs: seq<Field>, fileTitle: string, k: nat)
    requires k < |defs|
    ensures |DefItems(defs, fileTitle)| == |defs|
    ensures DefItems(defs, fileTitle)[k] == Item(TitleFor(defs[k], fileTitle), Drop(BodyOf(defs[k].value), {"$defs"}))
  {
    if |defs| > 1 { DefItemsAt(defs[1..], fileTitle, if k == 0 then 0 else k - 1); }
  }

  lemma {:induction false} DefAt(defs: seq<Field>, fileTitle: string, x: string) returns (k: nat)
    requires x in DefsOf(defs)
    ensures k < |defs| && defs[k].key == x && DefsOf(defs)[x] == defs[k].value
    ensures x in RenameOf(defs, fileTitle) && RenameOf(defs, fileTitle)[x] == TitleFor(defs[k], fileTitle)
  {
    if x == defs[0].key {
      k := 0;
    } else {
      k := DefAt(defs[1..], fileTitle, x);
      k := k + 1;
    }
  }

  /** Each definition of a file is one of its items, under the title its references are rewritten to. */
  lemma ItemOf(f: SchemaFile, x: string) returns (k: nat)
    requires FileOk(f) && x in OwnDefs(f)
    ensures k < |Items(f)| && Items(f)[k].title == Target(FileRename(f), x) && Obj(Items(f)[k].body) == OwnDefs(f)[x]
  {
    k := DefAt(LocalDefs(f), FileTitle(f), x);
    DefItemsAt(LocalDefs(f), FileTitle(f), k);
    assert DefOk(LocalDefs(f)[k], OwnDefs(f).Keys);
  }

  lemma ItemRefs(f: SchemaFile, k: nat)
    requires FileOk(f) && k < |Items(f)|
    ensures FieldsRefsIn(Items(f)[k].body, OwnDefs(f).Keys)
  {
    var defs := LocalDefs(f);
    if defs != [] { DefItemsAt(defs, FileTitle(f), if k < |defs| then k else 0); }
    if k < |defs| { assert DefOk(defs[k], OwnDefs(f).Keys); }
  }

  // ----- every reference resolves

  lemma RenamedIn(files: seq<SchemaFile>, i: nat, x: string)
    requires FilesOk(files) && i < |files| && x in OwnDefs(files[i])
    ensures Target(FileRename(files[i]), x) in MergeFiles(map[], files)
  {
    MergeFilesHolds(map[], files);
    var k := ItemOf(files[i], x);
  }

  lemma ModelRefs(files: seq<SchemaFile>, i: nat, k: nat)
    requires FilesOk(files) && i < |files| && k < |Items(files[i])|
    ensures RefsIn(Model(Items(files[i])[k], FileRename(files[i])), MergeFiles(map[], files).Keys)
  {
    var names, it, ren := MergeFiles(map[], files).Keys, Items(files[i])[k], FileRename(files[i]);
    assert FileOk(files[i]);
    ItemRefs(files[i], k);
    forall x | x in OwnDefs(files[i]) ensures Target(ren, x) in names { RenamedIn(files, i, x); }
    WalkFieldsRefs(it.body, ren, OwnDefs(files[i]).Keys, names);
    SetTitleRefs(WalkFields(it.body, ren), it.title, names);
  }

  /** Every definition of the merged document comes from an item of some file. */
  lemma Origin(files: seq<SchemaFile>, t: string) returns (i: nat, k: nat)
    requires t in MergeFiles(map[], files)
    ensures i < |files| && k < |Items(files[i])| && Items(files[i])[k].title == t
    ensures MergeFiles(map[], files)[t] == Model(Items(files[i])[k], FileRename(files[i]))
  {
    var m := MergeFiles(map[], files);
    MergeFilesHolds(map[], files);
    assert FromFiles(files, t, m[t]);
    i :| 0 <= i < |files| && FromItems(Items(files[i]), FileRename(files[i]), t, m[t]);
    k :| 0 <= k < |Items(files[i])| && Items(files[i])[k].title == t && m[t] == Model(Items(files[i])[k], FileRename(files[i]));
  }

  /** Every reference in the merged document names a definition of the merged document. */
  lemma EveryRefResolves(files: seq<SchemaFile>, t: string)
    requires FilesOk(files) && t in MergeFiles(map[], files)
    ensures RefsIn(MergeFiles(map[], files)[t], MergeFiles(map[], files).Keys)
  {
    var i, k := Origin(files, t);
    ModelRefs(files, i, k);
  }

  // ----- what a merged definition is called

  lemma {:induction false} GetSetTitle(fs: seq<Field>, title: string, key: string)
    ensures Get(SetTitle(fs, title), key) == if key == "title" then Some(Str(title)) else Get(fs, key)
  {
    var ts := SetTitle(fs, title);
    if fs == [] {
      assert ts[1..] == [];
    } else if fs[0].key == "title" {
      assert ts[1..] == fs[1..];
    } else {
      assert ts[1..] == SetTitle(fs[1..], title);
      GetSetTitle(fs[1..], title, key);
    }
  }

  lemma {:induction false} GetWalk(fs: seq<Field>, ren: Rename, key: string)
    ensures Get(WalkFields(fs, ren), key).Some? <==> Get(fs, key).Some?
  {
    if fs != [] {
      var ws := WalkFields(fs, ren);
      assert ws[1..] == WalkFields(fs[1..], ren) && ws[0].key == fs[0].key;
      GetWalk(fs[1..], ren, key);
    }
  }

  lemma {:induction false} GetDrop(fs: seq<Field>, keys: set<string>, key: string)
    ensures Get(Drop(fs, keys), key) == if key in keys then None else Get(fs, key)
  {
    if fs != [] {
      GetDrop(fs[1..], keys, key);
      var ds := Drop(fs, keys);
      if fs[0].key !in keys { assert ds[0] == fs[0] && ds[1..] == Drop(fs[1..], keys); }
    }
  }

  lemma ItemHasNoDefs(f: SchemaFile, k: nat)
    requires k < |Items(f)|
    ensures Get(Items(f)[k].body, "$defs") == None
  {
    var defs := LocalDefs(f);
    if defs != [] { DefItemsAt(defs, FileTitle(f), if k < |defs| then k else 0); }
    if k < |defs| {
      GetDrop(BodyOf(defs[k].value), {"$defs"}, "$defs");
    } else {
      GetDrop(f.fields, {"$defs", "$schema", "$id"}, "$defs");
    }
  }

  /** Every merged definition is an object, bears the title it is keyed by, and has no definitions of its own. */
  lemma MergedIsTitled(files: seq<SchemaFile>, t: string)
    requires t in MergeFiles(map[], files)
    ensures var def := MergeFiles(map[], files)[t];
      def.Obj? && Get(def.fields, "title") == Some(Str(t)) && Get(def.fields, "$defs") == None
  {
    var i, k := Origin(files, t);
    var it, ren := Items(files[i])[k], FileRename(files[i]);
    var ws := WalkFields(it.body, ren);
    GetSetTitle(ws, it.title, "title");
    GetSetTitle(ws, it.title, "$defs");
    GetWalk(it.body, ren, "$defs");
    ItemHasNoDefs(files[i], k);
    assert "$defs"[0] != "title"[0];
  }

  /** A definition is called by its own title, or by its file's title and its name when it has none. */
  predicate CalledBy(def: Field, fileTitle: string, t: string) {
    match def.value
    case Obj(fs) => (
      match Get(fs, "title")
      case Some(Str(own)) => t == if own != "" then own else fileTitle + def.key
      case _ => t == fileTitle + def.key)
    case _ => t == fileTitle + def.key
  }

  /** The file brings a definition of this title, or is itself one of this title. */
  ghost predicate Brings(f: SchemaFile, t: string) {
    || (exists k {:trigger LocalDefs(f)[k]} :: 0 <= k < |LocalDefs(f)| && CalledBy(LocalDefs(f)[k], FileTitle(f), t))
    || (t == FileTitle(f) && !OneOfFile(f))
  }

  lemma ItemsBring(f: SchemaFile, t: string)
    ensures Brings(f, t) <==> exists k :: 0 <= k < |Items(f)| && Items(f)[k].title == t
  {
    var defs, items := LocalDefs(f), Items(f);
    if defs != [] { DefItemsAt(defs, FileTitle(f), 0); }
    forall k | 0 <= k < |defs| ensures items[k].title == t <==> CalledBy(defs[k], FileTitle(f), t) {
      DefItemsAt(defs, FileTitle(f), k);
    }
    if t == FileTitle(f) && !OneOfFile(f) { assert items[|defs|].title == t; }
    if k :| 0 <= k < |defs| && CalledBy(defs[k], FileTitle(f), t) { assert items[k].title == t; }
    if k :| 0 <= k < |items| && items[k].title == t { if k < |defs| { assert CalledBy(defs[k], FileTitle(f), t); } }
  }

  /** The merged document has exactly the definitions the files bring. */
  lemma MergedIff(files: seq<SchemaFile>, t: string)
    ensures t in MergeFiles(map[], files) <==> exists i :: 0 <= i < |files| && Brings(files[i], t)
  {
    MergeFilesHolds(map[], files);
    if t in MergeFiles(map[], files) {
      var i, k := Origin(files, t);
      ItemsBring(files[i], t);
    }
    if i :| 0 <= i < |files| && Brings(files[i], t) { ItemsBring(files[i], t); }
  }

  // ----- meaning is preserved

  /** What item `k` of file `i` means where it was written. */
  function OwnMeaning(n: nat, files: seq<SchemaFile>, i: nat, k: nat): Json
    requires i < |files| && k < |Items(files[i])|
  {
    Meaning(n, OwnDefs(files[i]), Obj(Items(files[i])[k].body))
  }

  ghost predicate PreservedAt(n: nat, files: seq<SchemaFile>) {
    forall i, k :: 0 <= i < |files| && 0 <= k < |Items(files[i])| ==>
      OwnMeaning(n, files, i, k) == RefMeaning(n, MergeFiles(map[], files), Items(files[i])[k].title)
  }

  /** Two items have the same title. */
  predicate Clash(files: seq<SchemaFile>, i: int, k: int, i': int, k': int) {
    && 0 <= i < |files| && 0 <= k < |Items(files[i])| && 0 <= i' < |files| && 0 <= k' < |Items(files[i'])|
    && Items(files[i])[k].title == Items(files[i'])[k'].title
  }

  /** Items with the same title mean the same, each in its own file. */
  ghost predicate CompatibleAt(n: nat, files: seq<SchemaFile>) {
    forall i, k, i', k' :: Clash(files, i, k, i', k') ==> OwnMeaning(n, files, i, k) == OwnMeaning(n, files, i', k')
  }

  /** Items with the same title have the same text once their references are rewritten. */
  ghost predicate SameText(files: seq<SchemaFile>) {
    forall i, k, i', k' :: Clash(files, i, k, i', k') ==>
      StripTitle(WalkFields(Items(files[i])[k].body, FileRename(files[i]))) ==
      StripTitle(WalkFields(Items(files[i'])[k'].body, FileRename(files[i'])))
  }

  lemma AgreeBelow(n: nat, files: seq<SchemaFile>, i: nat)
    requires FilesOk(files) && i < |files| && (forall m :: 0 <= m < n ==> PreservedAt(m, files))
    ensures Agree(n, OwnDefs(files[i]), MergeFiles(map[], files), FileRename(files[i]))
  {
    var own, merged, ren := OwnDefs(files[i]), MergeFiles(map[], files), FileRename(files[i]);
    forall m, x | 0 <= m < n && x in own ensures RefMeaning(m, own, x) == RefMeaning(m, merged, Target(ren, x)) {
      var k := ItemOf(files[i], x);
      assert PreservedAt(m, files);
      assert OwnMeaning(m, files, i, k) == RefMeaning(m, merged, Items(files[i])[k].title);
    }
  }

  /** Rewriting an item and moving it into the merged document keeps its meaning. */
  lemma RewrittenMeaning(n: nat, files: seq<SchemaFile>, i: nat, k: nat)
    requires FilesOk(files) && i < |files| && k < |Items(files[i])|
    requires forall m :: 0 <= m < n ==> PreservedAt(m, files)
    ensures var it, ren := Items(files[i])[k], FileRename(files[i]);
      && OwnMeaning(n, files, i, k) == Meaning(n, MergeFiles(map[], files), Model(it, ren))
      && OwnMeaning(n, files, i, k) ==
           Obj(UnfoldFields(n, MergeFiles(map[], files), StripTitle(WalkFields(it.body, ren))))
  {
    var own, merged, ren, it := OwnDefs(files[i]), MergeFiles(map[], files), FileRename(files[i]), Items(files[i])[k];
    AgreeBelow(n, files, i);
    ItemRefs(files[i], k);
    DropRefs(it.body, {"title"}, own.Keys);
    UnfoldWalkFields(n, own, merged, ren, StripTitle(it.body));
    StripWalk(it.body, ren);
    StripSetTitle(WalkFields(it.body, ren), it.title);
  }

  /** Where a merged definition came from. */
  lemma {:induction false} CompatiblePreserves(n: nat, files: seq<SchemaFile>)
    requires FilesOk(files) && (forall m :: 0 <= m <= n ==> CompatibleAt(m, files))
    ensures PreservedAt(n, files)
    decreases n
  {
    forall m | 0 <= m < n ensures PreservedAt(m, files) { CompatiblePreserves(m, files); }
    MergeFilesHolds(map[], files);
    forall i, k | 0 <= i < |files| && 0 <= k < |Items(files[i])|
      ensures OwnMeaning(n, files, i, k) == RefMeaning(n, MergeFiles(map[], files), Items(files[i])[k].title)
    {
      var i0, k0 := Origin(files, Items(files[i])[k].title);
      RewrittenMeaning(n, files, i0, k0);
      assert CompatibleAt(n, files) && Clash(files, i, k, i0, k0);
    }
  }

  lemma {:induction false} SameTextPreserves(n: nat, files: seq<SchemaFile>)
    requires FilesOk(files) && SameText(files)
    ensures PreservedAt(n, files)
    decreases n
  {
    forall m | 0 <= m < n ensures PreservedAt(m, files) { SameTextPreserves(m, files); }
    MergeFilesHolds(map[], files);
    forall i, k | 0 <= i < |files| && 0 <= k < |Items(files[i])|
      ensures OwnMeaning(n, files, i, k) == RefMeaning(n, MergeFiles(map[], files), Items(files[i])[k].title)
    {
      var i0, k0 := Origin(files, Items(files[i])[k].title);
      RewrittenMeaning(n, files, i0, k0);
      RewrittenMeaning(n, files, i, k);
      assert Clash(files, i, k, i0, k0);
    }
  }

  /**
   * The merge keeps the meaning of every definition and of every flat file, to every depth, exactly when
   * items that share a title mean the same in their own files.
   */
  lemma MergePreservesMeaningIff(files: seq<SchemaFile>)
    requires FilesOk(files)
    ensures (forall n: nat :: PreservedAt(n, files)) <==> (forall n: nat :: CompatibleAt(n, files))
  {
    if forall n: nat :: CompatibleAt(n, files) {
      forall n: nat ensures PreservedAt(n, files) { CompatiblePreserves(n, files); }
    }
    if forall n: nat :: PreservedAt(n, files) {
      forall n: nat ensures CompatibleAt(n, files) {
        assert PreservedAt(n, files);
        forall i, k, i', k' | Clash(files, i, k, i', k')
          ensures OwnMeaning(n, files, i, k) == OwnMeaning(n, files, i', k')
        {
        }
      }
    }
  }

  /** In particular when shared definitions are copies of each other, which can be read off the files. */
  lemma CopiesMergeSafely(files: seq<SchemaFile>)
    requires FilesOk(files) && SameText(files)
    ensures forall n: nat :: PreservedAt(n, files)
  {
    forall n: nat ensures PreservedAt(n, files) { SameTextPreserves(n, files); }
  }

  function Flat(kind: string): SchemaFile {
    SchemaFile("", [Field("title", Str("T")), Field("type", Str(kind))])
  }

  lemma Apart(a: string, b: string, i: nat)
    requires i < |a| && i < |b| && a[i] != b[i]
    ensures a != b
  {
  }

  lemma FlatKeysApart(key: string)
    requires key == "title" || key == "type"
    ensures key != "$defs" && key != "$schema" && key != "$id" && key != "$ref" && key != "oneOf"
  {
    assert key[0] == 't';
    Apart(key, "$defs", 0);
    Apart(key, "$schema", 0);
    Apart(key, "$id", 0);
    Apart(key, "$ref", 0);
    Apart(key, "oneOf", 0);
  }

  /** A plain field: neither a reference nor anything with parts. */
  predicate PlainField(f: Field) { f.key != "$ref" && f.value.Str? }

  lemma {:induction false} GetMissing(fs: seq<Field>, key: string)
    requires forall i :: 0 <= i < |fs| ==> fs[i].key != key
    ensures Get(fs, key).None?
  {
    if fs != [] { GetMissing(fs[1..], key); }
  }

  lemma {:induction false} DropNothing(fs: seq<Field>, keys: set<string>)
    requires forall i :: 0 <= i < |fs| ==> fs[i].key !in keys
    ensures Drop(fs, keys) == fs
  {
    if fs != [] {
      DropNothing(fs[1..], keys);
      assert fs == [fs[0]] + fs[1..];
    }
  }

  lemma {:induction false} PlainRefs(fs: seq<Field>, names: set<string>)
    requires forall i :: 0 <= i < |fs| ==> PlainField(fs[i])
    ensures FieldsRefsIn(fs, names)
  {
    if fs != [] {
      assert PlainField(fs[0]);
      PlainRefs(fs[1..], names);
    }
  }

  lemma {:induction false} PlainUnfolds(n: nat, defs: Defs, fs: seq<Field>)
    requires forall i :: 0 <= i < |fs| ==> PlainField(fs[i])
    ensures UnfoldFields(n, defs, fs) == fs
  {
    if fs != [] {
      assert PlainField(fs[0]);
      PlainUnfolds(n, defs, fs[1..]);
      assert fs == [fs[0]] + fs[1..];
    }
  }

  lemma FlatFields(kind: string)
    ensures var fs := Flat(kind).fields;
      forall i :: 0 <= i < |fs| ==> PlainField(fs[i]) && fs[i].key != "$defs" && fs[i].key != "$schema" && fs[i].key != "$id"
  {
    FlatKeysApart("title");
    FlatKeysApart("type");
  }

  lemma FlatHasNoDefs(kind: string)
    ensures LocalDefs(Flat(kind)) == [] && OwnDefs(Flat(kind)) == map[] && FileTitle(Flat(kind)) == "T"
  {
    FlatFields(kind);
    GetMissing(Flat(kind).fields, "$defs");
    assert Get(Flat(kind).fields, "title") == Some(Str("T"));
    assert |"T"| == 1;
  }

  lemma FlatOk(kind: string)
    ensures FileOk(Flat(kind))
  {
    var fs := Flat(kind).fields;
    FlatFields(kind);
    FlatHasNoDefs(kind);
    DropNothing(fs, {"$defs", "$schema", "$id"});
    PlainRefs(fs, OwnDefs(Flat(kind)).Keys);
  }

  lemma FlatItem(kind: string)
    ensures Items(Flat(kind)) == [Item("T", Flat(kind).fields)]
  {
    var f := Flat(kind);
    FlatFields(kind);
    FlatHasNoDefs(kind);
    DropNothing(f.fields, {"$defs", "$schema", "$id"});
    assert DefItems(LocalDefs(f), FileTitle(f)) == [] && !OneOfFile(f);
  }

  lemma FlatMeaning(kind: string)
    ensures Meaning(0, OwnDefs(Flat(kind)), Obj(Flat(kind).fields)) == Obj([Field("type", Str(kind))])
  {
    var fs, one := Flat(kind).fields, [Field("type", Str(kind))];
    FlatHasNoDefs(kind);
    FlatKeysApart("type");
    Apart("type", "title", 1);
    assert fs[1..] == one;
    DropNothing(one, {"title"});
    assert StripTitle(fs) == Drop(one, {"title"});
    PlainUnfolds(0, map[], one);
  }

  /** Items that share a title and differ in meaning are not both kept. */
  lemma ClashIsLoss(n: nat, files: seq<SchemaFile>, i: nat, k: nat, i': nat, k': nat)
    requires Clash(files, i, k, i', k') && OwnMeaning(n, files, i, k) != OwnMeaning(n, files, i', k')
    ensures !PreservedAt(n, files)
  {
  }

  lemma FlatsMeanDifferently(a: string, b: string)
    requires a != b
    ensures Meaning(0, OwnDefs(Flat(a)), Obj(Flat(a).fields)) != Meaning(0, OwnDefs(Flat(b)), Obj(Flat(b).fields))
  {
    FlatMeaning(a);
    FlatMeaning(b);
    assert [Field("type", Str(a))][0] != [Field("type", Str(b))][0];
  }

  lemma FlatsClash(files: seq<SchemaFile>, a: string, b: string)
    requires files == [Flat(a), Flat(b)] && a != b
    ensures Clash(files, 0, 0, 1, 0) && OwnMeaning(0, files, 0, 0) != OwnMeaning(0, files, 1, 0)
  {
    FlatItem(a);
    FlatItem(b);
    FlatsMeanDifferently(a, b);
  }

  /** Two files that give different things the same title: one of the meanings is lost. */
  lemma ClashLosesMeaning(a: string, b: string)
    requires a != b
    ensures FilesOk([Flat(a), Flat(b)]) && !PreservedAt(0, [Flat(a), Flat(b)])
  {
    var files := [Flat(a), Flat(b)];
    FlatOk(a);
    FlatOk(b);
    FlatsClash(files, a, b);
    ClashIsLoss(0, files, 0, 0, 1, 0);
  }
}
