/** The cache of translations in DCIGETTEXT, and the calls that are to invalidate it. */
module TranslationCache {
  import opened Common
  import opened CatalogIndex

  /** A catalog file: a directory, one variant of a locale name, a category and a domain. */
  datatype File = File(dir: string, locale: string, category: nat, domain: string)

  /** What does not change during a run: the files, the locale, the working directory. */
  datatype World = World(
    locales: nat -> seq<string>,
    variants: string -> seq<string>,
    entry: (File, string) -> Option<string>,
    convert: (File, Option<string>, string) -> string,
    pluralForm: (File, nat, string) -> string,
    cwd: string,
    defaultDir: string)

  datatype Binding = Binding(name: string, dirname: string, codeset: Option<string>, cntr: nat)

  // ---------- bindings ----------

  ghost predicate InOrder(bs: seq<Binding>) {
    forall i, j :: 0 <= i < j < |bs| ==> StrCmp(bs[i].name, bs[j].name) < 0
  }

  /** The binding of a domain, or the defaults. */
  function Bound(w: World, bs: seq<Binding>, d: string): (b: Binding)
    ensures b.name == d
  {
    if bs == [] then Binding(d, w.defaultDir, None, 0)
    else if bs[0].name == d then bs[0]
    else Bound(w, bs[1..], d)
  }

  lemma {:induction false} BoundAt(w: World, bs: seq<Binding>, i: nat)
    requires InOrder(bs) && i < |bs|
    ensures Bound(w, bs, bs[i].name) == bs[i]
  {
    if i > 0 {
      assert StrCmp(bs[0].name, bs[i].name) < 0;
      assert InOrder(bs[1..]);
      BoundAt(w, bs[1..], i - 1);
    }
  }

  lemma {:induction false} Unbound(w: World, bs: seq<Binding>, d: string)
    requires forall i :: 0 <= i < |bs| ==> bs[i].name != d
    ensures Bound(w, bs, d) == Binding(d, w.defaultDir, None, 0)
  {
    if bs != [] {
      Unbound(w, bs[1..], d);
    }
  }

  lemma {:induction false} BoundAfterUpdate(w: World, bs: seq<Binding>, i: nat, b: Binding, d: string)
    requires InOrder(bs) && i < |bs| && b.name == bs[i].name
    ensures InOrder(bs[i := b])
    ensures Bound(w, bs[i := b], d) == if d == b.name then b else Bound(w, bs, d)
  {
    if i > 0 {
      assert StrCmp(bs[0].name, bs[i].name) < 0;
      assert InOrder(bs[1..]);
      assert bs[i := b][1..] == bs[1..][i - 1 := b];
      BoundAfterUpdate(w, bs[1..], i - 1, b, d);
    } else {
      assert bs[i := b][1..] == bs[1..];
    }
  }

  lemma {:induction false} BoundAfterInsert(w: World, bs: seq<Binding>, i: nat, b: Binding, d: string)
    requires i <= |bs| && forall k :: 0 <= k < |bs| ==> bs[k].name != b.name
    ensures Bound(w, bs[..i] + [b] + bs[i..], d) == if d == b.name then b else Bound(w, bs, d)
  {
    var r := bs[..i] + [b] + bs[i..];
    if i == 0 {
      assert r[0] == b && r[1..] == bs;
    } else {
      assert r[0] == bs[0] && r[1..] == bs[1..][..i - 1] + [b] + bs[1..][i - 1..];
      BoundAfterInsert(w, bs[1..], i - 1, b, d);
    }
  }

  lemma InsertedInOrder(bs: seq<Binding>, i: nat, b: Binding)
    requires InOrder(bs) && i <= |bs|
    requires forall k :: 0 <= k < i ==> StrCmp(bs[k].name, b.name) < 0
    requires forall k :: i <= k < |bs| ==> StrCmp(b.name, bs[k].name) < 0
    ensures InOrder(bs[..i] + [b] + bs[i..])
  {
    var r := bs[..i] + [b] + bs[i..];
    forall x, y | 0 <= x < y < |r| ensures StrCmp(r[x].name, r[y].name) < 0 {
      assert r[x] == if x < i then bs[x] else if x == i then b else bs[x - 1];
      assert r[y] == if y < i then bs[y] else if y == i then b else bs[y - 1];
    }
  }

  // ---------- a lookup without a cache ----------

  datatype Hit = Hit(file: File, text: string)

  /** The first of the files that has the message. */
  function InFiles(w: World, files: seq<File>, codeset: Option<string>, msgid: string): Option<Hit> {
    if files == [] then None
    else
      match w.entry(files[0], msgid)
      case Some(t) => Some(Hit(files[0], w.convert(files[0], codeset, t)))
      case None => InFiles(w, files[1..], codeset, msgid)
  }

  /** A relative directory is taken from the working directory. */
  function Directory(w: World, dirname: string): string {
    if dirname != [] && dirname[0] == '/' then dirname else w.cwd + "/" + dirname
  }

  function FilesFor(dir: string, domain: string, category: nat, names: seq<string>): (r: seq<File>)
    ensures forall f :: f in r ==> f.domain == domain
  {
    seq(|names|, k requires 0 <= k < |names| => File(dir, names[k], category, domain))
  }

  /** The languages in their order; "C" and "POSIX" end the search, and so does the end of the list. */
  function InLocales(w: World, b: Binding, category: nat, ls: seq<string>, msgid: string): Option<Hit> {
    if ls == [] || ls[0] == "C" || ls[0] == "POSIX" then None
    else
      match InFiles(w, FilesFor(Directory(w, b.dirname), b.name, category, w.variants(ls[0])), b.codeset, msgid)
      case Some(h) => Some(h)
      case None => InLocales(w, b, category, ls[1..], msgid)
  }

  datatype Key = Key(msgid: string, domain: string, category: nat)

  function Uncached(w: World, bs: seq<Binding>, k: Key): Option<Hit> {
    InLocales(w, Bound(w, bs, k.domain), k.category, w.locales(k.category), k.msgid)
  }

  /** What the caller gets; without a translation, the message by the Germanic plural rule. */
  function Answer(w: World, h: Option<Hit>, msgid1: string, msgid2: string, plural: Option<nat>): string {
    match h
    case Some(hit) => if plural.Some? then w.pluralForm(hit.file, plural.value, hit.text) else hit.text
    case None => if plural == None || plural == Some(1) then msgid1 else msgid2
  }

  // ---------- the state ----------

  /** known_translation_t */
  datatype Known = Known(counter: nat, hit: Hit)

  /** The converter that a loaded catalog was set up with. */
  datatype Conv = Conv(cntr: nat, codeset: Option<string>)

  /** A converter whose counter is the one of its domain's binding was set up for its codeset. */
  ghost predicate ConvOk(w: World, bs: seq<Binding>, conv: map<File, Conv>) {
    forall f :: f in conv ==>
      var b := Bound(w, bs, f.domain);
      conv[f].cntr <= b.cntr && (conv[f].cntr == b.cntr ==> conv[f].codeset == b.codeset)
  }

  /** An entry whose counter is current is what an uncached lookup finds. */
  ghost predicate CacheOk(w: World, bs: seq<Binding>, cache: map<Key, Known>, counter: nat) {
    forall k :: k in cache ==>
      cache[k].counter <= counter && (cache[k].counter == counter ==> Uncached(w, bs, k) == Some(cache[k].hit))
  }

  const DEFAULT_DOMAIN := "messages"

  /** What a call asks of one attribute: nothing, its value, or to set it. */
  datatype Request = Ignore | Query | Set(value: string)

  class Intl {
    const w: World
    var bindings: seq<Binding>
    var current: string
    var counter: nat
    var cache: map<Key, Known>
    var conv: map<File, Conv>

    ghost predicate Valid()
      reads this
    {
      InOrder(bindings) && ConvOk(w, bindings, conv) && CacheOk(w, bindings, cache, counter) &&
      w.defaultDir != [] && w.defaultDir[0] == '/'
    }

    constructor (world: World)
      requires world.defaultDir != [] && world.defaultDir[0] == '/'
      ensures w == world && Valid() && current == DEFAULT_DOMAIN && bindings == []
    {
      w, bindings, current, counter, cache, conv := world, [], DEFAULT_DOMAIN, 0, map[], map[];
    }

    /** The search loop over the sorted list, which stops at the first larger name. */
    method FindBinding(d: string) returns (i: nat)
      requires InOrder(bindings)
      ensures i <= |bindings|
      ensures i < |bindings| ==> bindings[i].name == d && Bound(w, bindings, d) == bindings[i]
      ensures i == |bindings| ==> forall k :: 0 <= k < |bindings| ==> bindings[k].name != d
      ensures i == |bindings| ==> Bound(w, bindings, d) == Binding(d, w.defaultDir, None, 0)
    {
      i := 0;
      while i < |bindings|
        invariant i <= |bindings| && forall k :: 0 <= k < i ==> bindings[k].name != d
        decreases |bindings| - i
      {
        var compare := StrCmp(d, bindings[i].name);
        if compare == 0 {
          BoundAt(w, bindings, i);
          return;
        }
        if compare < 0 {
          forall k | i < k < |bindings| ensures bindings[k].name != d {
            StrCmpTransitive(d, bindings[i].name, bindings[k].name);
          }
          break;
        }
        i := i + 1;
      }
      i := |bindings|;
      Unbound(w, bindings, d);
    }

    /** Where a new binding is enqueued. */
    method FindSlot(d: string) returns (i: nat)
      requires InOrder(bindings) && forall k :: 0 <= k < |bindings| ==> bindings[k].name != d
      ensures i <= |bindings|
      ensures forall k :: 0 <= k < i ==> StrCmp(bindings[k].name, d) < 0
      ensures forall k :: i <= k < |bindings| ==> StrCmp(d, bindings[k].name) < 0
    {
      i := 0;
      while i < |bindings| && StrCmp(d, bindings[i].name) > 0
        invariant i <= |bindings| && forall k :: 0 <= k < i ==> StrCmp(bindings[k].name, d) < 0
      {
        StrCmpSwaps(d, bindings[i].name);
        i := i + 1;
      }
      if i < |bindings| {
        forall k | i < k < |bindings| ensures StrCmp(d, bindings[k].name) < 0 {
          StrCmpTransitive(d, bindings[i].name, bindings[k].name);
        }
      }
    }

    /** set_binding_values, for bindtextdomain and bind_textdomain_codeset. */
    method SetBinding(domain: Option<string>, dir: Request, codeset: Request) returns (dirOut: Option<string>, codesetOut: Option<string>)
      requires Valid()
      modifies this`bindings, this`counter
      ensures Valid()
      ensures domain == None || domain.value == "" ==>
        bindings == old(bindings) && counter == old(counter) && dirOut == None && codesetOut == None
      ensures domain.Some? && domain.value != "" ==>
        dirOut == (if dir == Ignore then None else Some(Bound(w, bindings, domain.value).dirname)) &&
        codesetOut == (if codeset == Ignore then None else Bound(w, bindings, domain.value).codeset)
      ensures domain.Some? && domain.value != "" ==>
        forall x :: Bound(w, bindings, x) ==
          if x == domain.value then Rebound(old(Bound(w, bindings, x)), dir, codeset) else old(Bound(w, bindings, x))
    {
      hide InOrder, ConvOk, CacheOk, Bound;
      if domain == None || domain.value == "" {
        return None, None;
      }
      var d := domain.value;
      ghost var bs, n := bindings, counter;
      var i := FindBinding(d);
      var modified := false;
      var b := Binding(d, w.defaultDir, None, 0);
      if i < |bindings| {
        b := bindings[i];
        if dir.Set? && dir.value != b.dirname {
          b := b.(dirname := dir.value);
          modified := true;
        }
        if codeset.Set? && b.codeset != Some(codeset.value) {
          b := b.(codeset := Some(codeset.value), cntr := b.cntr + 1);
          modified := true;
        }
        forall x {
          BoundAfterUpdate(w, bs, i, b, x);
        }
        bindings := bindings[i := b];
      } else if dir.Set? || codeset.Set? {
        b := Binding(d, if dir.Set? then dir.value else w.defaultDir,
                     if codeset.Set? then Some(codeset.value) else None, if codeset.Set? then 1 else 0);
        var j := FindSlot(d);
        InsertedInOrder(bs, j, b);
        forall x {
          BoundAfterInsert(w, bs, j, b, x);
        }
        bindings := bindings[..j] + [b] + bindings[j..];
        modified := true;
      }
      if modified {
        counter := counter + 1;
        CacheFlushed(w, bs, bindings, cache, n);
      } else {
        CacheSurvives(w, bs, bindings, cache, n);
      }
      ConvSurvives(w, bs, bindings, conv, d, dir, codeset);
      dirOut := if dir == Ignore then None else Some(b.dirname);
      codesetOut := if codeset == Ignore then None else b.codeset;
    }

    /** textdomain */
    method TextDomain(domain: Option<string>) returns (r: string)
      requires Valid()
      modifies this`current, this`counter
      ensures Valid() && r == current
      ensures current == if domain == None then old(current) else if domain.value == "" then DEFAULT_DOMAIN else domain.value
    {
      if domain == None {
        return current;
      }
      if domain.value == "" || domain.value == DEFAULT_DOMAIN {
        current := DEFAULT_DOMAIN;
      } else if domain.value != current {
        current := domain.value;
      }
      CacheFlushed(w, bindings, bindings, cache, counter);
      counter := counter + 1;
      r := current;
    }

    /** _nl_find_msg: the converter of the catalog is set up when it is loaded, and again when
        its counter is not the one of the binding. */
    method FindInFile(f: File, b: Binding, msgid: string) returns (r: Option<string>)
      requires Valid() && b == Bound(w, bindings, f.domain)
      modifies this`conv
      ensures Valid()
      ensures match w.entry(f, msgid)
        case None => r == None
        case Some(t) => r == Some(w.convert(f, b.codeset, t))
    {
      hide InOrder, CacheOk, Bound;
      if f !in conv {
        conv := conv[f := Conv(b.cntr, b.codeset)];
      }
      var raw := w.entry(f, msgid);
      if raw == None {
        return None;
      }
      if conv[f].cntr != b.cntr {
        conv := conv[f := Conv(b.cntr, b.codeset)];
      }
      return Some(w.convert(f, conv[f].codeset, raw.value));
    }

    /** The domain of one locale and its successors. */
    method FindInFiles(files: seq<File>, b: Binding, msgid: string) returns (h: Option<Hit>)
      requires Valid() && b == Bound(w, bindings, b.name) && forall f :: f in files ==> f.domain == b.name
      modifies this`conv
      ensures Valid() && h == InFiles(w, files, b.codeset, msgid)
    {
      hide InOrder, CacheOk, Bound, ConvOk;
      assert files[0..] == files;
      for i := 0 to |files|
        invariant Valid() && InFiles(w, files, b.codeset, msgid) == InFiles(w, files[i..], b.codeset, msgid)
      {
        assert files[i..][0] == files[i] && files[i..][1..] == files[i + 1..];
        assert files[i] in files;
        var t := FindInFile(files[i], b, msgid);
        if t.Some? {
          return Some(Hit(files[i], t.value));
        }
      }
      return None;
    }

    /** DCIGETTEXT: whatever the cache holds, the answer is that of an uncached lookup. */
    method Lookup(domain: Option<string>, msgid1: string, msgid2: string, plural: Option<nat>, category: nat) returns (r: string)
      requires Valid()
      modifies this`conv, this`cache
      ensures Valid()
      ensures var d := if domain == None then current else domain.value;
        r == Answer(w, Uncached(w, bindings, Key(msgid1, d, category)), msgid1, msgid2, plural)
    {
      hide InOrder, Bound, ConvOk, InLocales;
      var d := if domain == None then current else domain.value;
      var key := Key(msgid1, d, category);
      if key in cache && cache[key].counter == counter {
        return Answer(w, Some(cache[key].hit), msgid1, msgid2, plural);
      }
      var h := Search(key);
      if h.Some? {
        cache := cache[key := Known(counter, h.value)];
      }
      return Answer(w, h, msgid1, msgid2, plural);
    }

    /** The loop over the languages. */
    method Search(key: Key) returns (h: Option<Hit>)
      requires Valid()
      modifies this`conv
      ensures Valid() && h == Uncached(w, bindings, key)
    {
      hide InOrder, ConvOk, CacheOk, Bound, FilesFor;
      var i := FindBinding(key.domain);
      var b := if i < |bindings| then bindings[i] else Binding(key.domain, w.defaultDir, None, 0);
      var ls := w.locales(key.category);
      assert ls[0..] == ls;
      var k := 0;
      while k < |ls| && ls[k] != "C" && ls[k] != "POSIX"
        invariant 0 <= k <= |ls| && Valid()
        invariant Uncached(w, bindings, key) == InLocales(w, b, key.category, ls[k..], key.msgid)
      {
        assert ls[k..][0] == ls[k] && ls[k..][1..] == ls[k + 1..];
        var files := FilesFor(Directory(w, b.dirname), b.name, key.category, w.variants(ls[k]));
        h := FindInFiles(files, b, key.msgid);
        if h.Some? {
          return;
        }
        k := k + 1;
      }
      h := None;
    }
  }

  /** The binding that a call leaves: what it set, and its converters' counter. */
  function Rebound(b: Binding, dir: Request, codeset: Request): Binding {
    var b1 := if dir.Set? then b.(dirname := dir.value) else b;
    if codeset.Set? && b.codeset != Some(codeset.value)
    then b1.(codeset := Some(codeset.value), cntr := b.cntr + 1) else b1
  }

  /** A lookup depends on the binding only through its directory and codeset. */
  lemma {:induction false} SameLookup(w: World, b: Binding, c: Binding, category: nat, ls: seq<string>, msgid: string)
    requires b.name == c.name && b.dirname == c.dirname && b.codeset == c.codeset
    ensures InLocales(w, b, category, ls, msgid) == InLocales(w, c, category, ls, msgid)
  {
    if ls != [] {
      SameLookup(w, b, c, category, ls[1..], msgid);
    }
  }

  /** A call that changes nothing leaves the cache valid. */
  lemma CacheSurvives(w: World, bs: seq<Binding>, bs': seq<Binding>, cache: map<Key, Known>, counter: nat)
    requires CacheOk(w, bs, cache, counter)
    requires forall d :: Bound(w, bs', d).dirname == Bound(w, bs, d).dirname && Bound(w, bs', d).codeset == Bound(w, bs, d).codeset
    ensures CacheOk(w, bs', cache, counter)
  {
    forall k | k in cache && cache[k].counter == counter ensures Uncached(w, bs', k) == Some(cache[k].hit) {
      SameLookup(w, Bound(w, bs, k.domain), Bound(w, bs', k.domain), k.category, w.locales(k.category), k.msgid);
    }
  }

  /** When the counter is advanced no entry is current. */
  lemma CacheFlushed(w: World, bs: seq<Binding>, bs': seq<Binding>, cache: map<Key, Known>, counter: nat)
    requires CacheOk(w, bs, cache, counter)
    ensures CacheOk(w, bs', cache, counter + 1)
  {
  }

  lemma ConvSurvives(w: World, bs: seq<Binding>, bs': seq<Binding>, conv: map<File, Conv>, d: string, dir: Request, codeset: Request)
    requires ConvOk(w, bs, conv)
    requires forall x :: Bound(w, bs', x) == if x == d then Rebound(Bound(w, bs, d), dir, codeset) else Bound(w, bs, x)
    ensures ConvOk(w, bs', conv)
  {
  }
}
