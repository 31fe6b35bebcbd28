/** Field masks on listed products: internal/service/product.go. */
module FieldMask {
  import opened Orders
  import opened Booking

  /** v1.Product; its specification carries the fields of biz.ProductSpec. */
  datatype Message = Message(id: int, name: string, description: string, status: int, price: int,
                             spec: Option<ProductSpec>)

  // ---------------------------------------------------------------------------------------------
  // Paths
  // ---------------------------------------------------------------------------------------------

  /** Unicode's White_Space, which strings.TrimSpace cuts. */
  predicate IsSpace(c: char) {
    || '\t' <= c <= '\r' || c == ' ' || c == '\U{85}' || c == '\U{A0}' || c == '\U{1680}'
    || '\U{2000}' <= c <= '\U{200A}' || c == '\U{2028}' || c == '\U{2029}' || c == '\U{202F}'
    || c == '\U{205F}' || c == '\U{3000}'
  }

  /** The 25 characters, one by one. */
  lemma SpacesAre(c: char)
    ensures IsSpace(c) <==> c in {'\U{9}', '\U{A}', '\U{B}', '\U{C}', '\U{D}', '\U{20}', '\U{85}', '\U{A0}', '\U{1680}',
                                  '\U{2000}', '\U{2001}', '\U{2002}', '\U{2003}', '\U{2004}', '\U{2005}', '\U{2006}',
                                  '\U{2007}', '\U{2008}', '\U{2009}', '\U{200A}', '\U{2028}', '\U{2029}', '\U{202F}',
                                  '\U{205F}', '\U{3000}'}
  {}

  function TrimLeft(s: string): (t: string)
    ensures t != "" ==> !IsSpace(t[0])
  {
    if s == "" || !IsSpace(s[0]) then s else TrimLeft(s[1..])
  }

  function TrimRight(s: string): (t: string)
    ensures t <= s
    ensures t != "" ==> !IsSpace(t[|t| - 1])
  {
    if s == "" || !IsSpace(s[|s| - 1]) then s else TrimRight(s[..|s| - 1])
  }

  function Trim(s: string): (t: string)
    ensures t != "" ==> !IsSpace(t[0]) && !IsSpace(t[|t| - 1])
  {
    TrimRight(TrimLeft(s))
  }

  lemma TrimNothing(s: string)
    requires s != "" ==> !IsSpace(s[0]) && !IsSpace(s[|s| - 1])
    ensures Trim(s) == s
  {}

  predicate Blank(s: string) {
    forall i :: 0 <= i < |s| ==> IsSpace(s[i])
  }

  /** Only blanks are cut, and only from the two ends. */
  lemma TrimCuts(s: string) returns (left: string, right: string)
    ensures s == left + Trim(s) + right && Blank(left) && Blank(right)
  {
    left := LeftCut(s);
    right := RightCut(TrimLeft(s));
  }

  lemma {:induction false} LeftCut(s: string) returns (left: string)
    ensures s == left + TrimLeft(s) && Blank(left)
  {
    left := "";
    if s != "" && IsSpace(s[0]) {
      left := LeftCut(s[1..]);
      left := [s[0]] + left;
    }
  }

  lemma {:induction false} RightCut(s: string) returns (right: string)
    ensures s == TrimRight(s) + right && Blank(right)
  {
    right := "";
    if s != "" && IsSpace(s[|s| - 1]) {
      right := RightCut(s[..|s| - 1]);
      right := right + [s[|s| - 1]];
    }
  }

  /** The keys of the map `normalizeMaskPaths` builds; every value in it is true. */
  function Normalized(paths: seq<string>): set<string> {
    set p | p in paths && Trim(p) != "" :: Trim(p)
  }

  method NormalizeMaskPaths(paths: seq<string>) returns (result: set<string>)
    ensures result == Normalized(paths)
  {
    result := {};
    for i := 0 to |paths|
      invariant result == Normalized(paths[..i])
    {
      var trimmed := Trim(paths[i]);
      assert paths[..i + 1] == paths[..i] + [paths[i]];
      if trimmed == "" {
        continue;
      }
      result := result + {trimmed};
    }
    assert paths[..|paths|] == paths;
  }

  const SPEC := "spec"

  predicate IsSpecPath(path: string) {
    "spec." <= path
  }

  predicate SomeSpecPath(paths: set<string>) {
    exists p :: p in paths && IsSpecPath(p)
  }

  /** The order in which a Go map is walked is not known, and does not matter. */
  method HasSpecField(paths: set<string>) returns (has: bool)
    ensures has == SomeSpecPath(paths)
  {
    var todo := paths;
    while todo != {}
      invariant todo <= paths
      invariant forall p :: p in paths && IsSpecPath(p) ==> p in todo
      decreases |todo|
    {
      var path: string :| path in todo;
      if IsSpecPath(path) {
        return true;
      }
      todo := todo - {path};
    }
    has := false;
  }

  // ---------------------------------------------------------------------------------------------
  // Applying a mask
  // ---------------------------------------------------------------------------------------------

  datatype Field = Id | Name | Description | Status | Price | Cpu | Memory | Gpu | Image | ConfigJson

  const FIELDS := {Id, Name, Description, Status, Price, Cpu, Memory, Gpu, Image, ConfigJson}

  predicate InSpec(f: Field) {
    f.Cpu? || f.Memory? || f.Gpu? || f.Image? || f.ConfigJson?
  }

  function PathOf(f: Field): string {
    match f
    case Id => "id"
    case Name => "name"
    case Description => "description"
    case Status => "status"
    case Price => "price"
    case Cpu => "spec.cpu"
    case Memory => "spec.memory"
    case Gpu => "spec.gpu"
    case Image => "spec.image"
    case ConfigJson => "spec.config_json"
  }

  /** What survives a mask: a set of fields, and whether a specification is present at all. */
  datatype Kept = Kept(fields: set<Field>, spec: bool)

  predicate Proper(k: Kept) {
    (forall f :: f in k.fields && InSpec(f) ==> k.spec) && k.fields <= FIELDS
  }

  const EVERYTHING := Kept(FIELDS, true)

  function Meet(a: Kept, b: Kept): Kept {
    Kept(a.fields * b.fields, a.spec && b.spec)
  }

  function ProjectSpec(s: ProductSpec, k: set<Field>): ProductSpec {
    ProductSpec(if Cpu in k then s.cpu else 0, if Memory in k then s.memory else 0, if Gpu in k then s.gpu else 0,
                if Image in k then s.image else "", if ConfigJson in k then s.configJson else "")
  }

  /** The reference: fields that are not kept take their zero values. */
  function Project(m: Message, k: Kept): Message {
    Message(if Id in k.fields then m.id else 0, if Name in k.fields then m.name else "",
            if Description in k.fields then m.description else "", if Status in k.fields then m.status else 0,
            if Price in k.fields then m.price else 0,
            if k.spec && m.spec.Some? then Some(ProjectSpec(m.spec.value, k.fields)) else None)
  }

  /** "spec" allows every field of the specification, and any path below it makes one present. */
  predicate Allowed(paths: set<string>, f: Field) {
    PathOf(f) in paths || (InSpec(f) && SPEC in paths)
  }

  function KeptBy(paths: set<string>): Kept {
    Kept((set f | f in FIELDS && Allowed(paths, f)), SPEC in paths || SomeSpecPath(paths))
  }

  /** A mask is None or a list of paths; without paths everything is kept. */
  function KeptUnder(mask: Option<seq<string>>): Kept {
    if mask.None? || mask.value == [] then EVERYTHING else KeptBy(Normalized(mask.value))
  }

  function Masked(m: Option<Message>, mask: Option<seq<string>>): Option<Message> {
    if m.None? then None else Some(Project(m.value, KeptUnder(mask)))
  }

  function MaskedSpec(spec: Option<ProductSpec>, paths: set<string>): Option<ProductSpec> {
    if spec.None? then None else Some(ProjectSpec(spec.value, KeptBy(paths).fields))
  }

  method ApplySpecMask(spec: Option<ProductSpec>, paths: set<string>) returns (r: Option<ProductSpec>)
    ensures r == MaskedSpec(spec, paths)
  {
    if spec.None? {
      return None;
    }
    if SPEC in paths {
      return spec;
    }
    var result := ProductSpec(0, 0, 0, "", "");
    if "spec.cpu" in paths {
      result := result.(cpu := spec.value.cpu);
    }
    if "spec.memory" in paths {
      result := result.(memory := spec.value.memory);
    }
    if "spec.gpu" in paths {
      result := result.(gpu := spec.value.gpu);
    }
    if "spec.image" in paths {
      result := result.(image := spec.value.image);
    }
    if "spec.config_json" in paths {
      result := result.(configJson := spec.value.configJson);
    }
    r := Some(result);
  }

  /** Path by path: "spec" lets the whole specification through, and otherwise each field has its own path. */
  lemma MaskedSpecIs(s: ProductSpec, paths: set<string>)
    ensures MaskedSpec(None, paths) == None && MaskedSpec(Some(s), paths).Some?
    ensures "spec" in paths ==> MaskedSpec(Some(s), paths) == Some(s)
    ensures "spec" !in paths ==>
              var r := MaskedSpec(Some(s), paths).value;
              && r.cpu == (if "spec.cpu" in paths then s.cpu else 0)
              && r.memory == (if "spec.memory" in paths then s.memory else 0)
              && r.gpu == (if "spec.gpu" in paths then s.gpu else 0)
              && r.image == (if "spec.image" in paths then s.image else "")
              && r.configJson == (if "spec.config_json" in paths then s.configJson else "")
  {}

  lemma ProjectIs(m: Message, paths: set<string>, r: Message, spec: Option<ProductSpec>)
    requires spec == MaskedSpec(m.spec, paths)
    requires r.id == if "id" in paths then m.id else 0
    requires r.name == if "name" in paths then m.name else ""
    requires r.description == if "description" in paths then m.description else ""
    requires r.status == if "status" in paths then m.status else 0
    requires r.price == if "price" in paths then m.price else 0
    requires r.spec == if SPEC in paths || SomeSpecPath(paths) then spec else None
    ensures r == Project(m, KeptBy(paths))
  {
    var k := KeptBy(paths).fields;
    assert (Id in k) == ("id" in paths) && (Name in k) == ("name" in paths);
    assert (Description in k) == ("description" in paths) && (Status in k) == ("status" in paths);
    assert (Price in k) == ("price" in paths);
  }

  method ApplyProductMask(product: Option<Message>, mask: Option<seq<string>>) returns (r: Option<Message>)
    ensures r == Masked(product, mask)
  {
    if product.None? {
      return None;
    }
    if mask.None? || mask.value == [] {
      return product;
    }
    var paths := NormalizeMaskPaths(mask.value);
    var result := Message(0, "", "", 0, 0, None);
    if "id" in paths {
      result := result.(id := product.value.id);
    }
    if "name" in paths {
      result := result.(name := product.value.name);
    }
    if "description" in paths {
      result := result.(description := product.value.description);
    }
    if "status" in paths {
      result := result.(status := product.value.status);
    }
    if "price" in paths {
      result := result.(price := product.value.price);
    }
    var hasSpec := HasSpecField(paths);
    if SPEC in paths || hasSpec {
      var spec := ApplySpecMask(product.value.spec, paths);
      result := result.(spec := spec);
    }
    ProjectIs(product.value, paths, result, MaskedSpec(product.value.spec, paths));
    r := Some(result);
  }

  // ---------------------------------------------------------------------------------------------
  // The algebra of masks
  // ---------------------------------------------------------------------------------------------

  /** What any mask keeps is proper: a kept field of the specification keeps the specification. */
  lemma KeptIsProper(mask: Option<seq<string>>)
    ensures Proper(KeptUnder(mask))
  {
    if mask.Some? && mask.value != [] {
      SpecFieldsKeepSpec(Normalized(mask.value));
    }
  }

  lemma SpecFieldsKeepSpec(paths: set<string>)
    ensures Proper(KeptBy(paths))
  {
    forall f | f in FIELDS && InSpec(f) && PathOf(f) in paths ensures SomeSpecPath(paths) {
      assert IsSpecPath(PathOf(f));
    }
  }

  /** One mask after another keeps what both keep. */
  lemma Compose(m: Message, a: Kept, b: Kept)
    ensures Project(Project(m, a), b) == Project(m, Meet(a, b))
  {}

  /** Masking twice is masking once, and the order of two masks does not matter. */
  lemma MaskLaws(m: Option<Message>, a: Option<seq<string>>, b: Option<seq<string>>)
    ensures Masked(Masked(m, a), a) == Masked(m, a)
    ensures Masked(Masked(m, a), b) == Masked(Masked(m, b), a)
  {
    if m.Some? {
      var k, l := KeptUnder(a), KeptUnder(b);
      Compose(m.value, k, k);
      Compose(m.value, k, l);
      Compose(m.value, l, k);
      assert Meet(k, k) == k && Meet(k, l) == Meet(l, k);
    }
  }

  /** `x` is one of the paths, up to white space around it. */
  predicate Lists(paths: seq<string>, x: string) {
    exists p :: p in paths && Trim(p) == x
  }

  /** Order, repetition, blanks around a path and blank paths make no difference. */
  lemma SamePaths(m: Option<Message>, a: seq<string>, b: seq<string>)
    requires a != [] && b != []
    requires forall x :: x != "" ==> (Lists(a, x) <==> Lists(b, x))
    ensures Masked(m, Some(a)) == Masked(m, Some(b))
  {
    forall x ensures x in Normalized(a) <==> x in Normalized(b) {
      NormalizedIff(a, x);
      NormalizedIff(b, x);
    }
    assert Normalized(a) == Normalized(b);
  }

  lemma NormalizedIff(paths: seq<string>, x: string)
    ensures x in Normalized(paths) <==> x != "" && Lists(paths, x)
  {}

  /** The whole effect of a list of paths, field by field: a field stays if the list names it, and the
      specification is present if the list names it or something below it. Without paths all stays. */
  lemma MaskSays(m: Message, paths: seq<string>)
    requires paths != []
    ensures Masked(None, Some(paths)) == None && Masked(Some(m), Some(paths)).Some?
    ensures Masked(Some(m), None) == Some(m) == Masked(Some(m), Some([]))
    ensures var r := Masked(Some(m), Some(paths)).value;
            && r.id == (if Lists(paths, "id") then m.id else 0)
            && r.name == (if Lists(paths, "name") then m.name else "")
            && r.description == (if Lists(paths, "description") then m.description else "")
            && r.status == (if Lists(paths, "status") then m.status else 0)
            && r.price == (if Lists(paths, "price") then m.price else 0)
            && r.spec == (if Lists(paths, "spec") || exists p :: p in paths && "spec." <= Trim(p)
                          then MaskedSpec(m.spec, Normalized(paths)) else None)
  {
    forall x ensures x in Normalized(paths) <==> x != "" && Lists(paths, x) {
      NormalizedIff(paths, x);
    }
    SpecPathListed(paths);
    FieldsKept(Normalized(paths));
    assert EVERYTHING.fields == FIELDS && forall f :: f in FIELDS ==> f in EVERYTHING.fields;
  }

  lemma FieldsKept(paths: set<string>)
    ensures var k := KeptBy(paths).fields;
            && (Id in k <==> "id" in paths) && (Name in k <==> "name" in paths) && (Price in k <==> "price" in paths)
            && (Description in k <==> "description" in paths) && (Status in k <==> "status" in paths)
    ensures KeptBy(paths).spec <==> "spec" in paths || SomeSpecPath(paths)
  {}

  lemma SpecPathListed(paths: seq<string>)
    ensures SomeSpecPath(Normalized(paths)) <==> exists p :: p in paths && "spec." <= Trim(p)
  {
    if SomeSpecPath(Normalized(paths)) {
      var x :| x in Normalized(paths) && IsSpecPath(x);
      var p :| p in paths && Trim(p) == x;
      assert "spec." <= Trim(p);
    }
    forall p | p in paths && "spec." <= Trim(p) ensures SomeSpecPath(Normalized(paths)) {
      assert Trim(p) in Normalized(paths) && IsSpecPath(Trim(p));
    }
  }

  function Join(a: Kept, b: Kept): Kept {
    Kept(a.fields + b.fields, a.spec || b.spec)
  }

  /** The paths of a mask act independently: together they keep what any of them keeps. */
  lemma UnionJoins(a: set<string>, b: set<string>)
    ensures KeptBy(a + b) == Join(KeptBy(a), KeptBy(b))
  {
    forall f | f in FIELDS ensures Allowed(a + b, f) <==> Allowed(a, f) || Allowed(b, f) {}
    assert KeptBy(a + b).fields == KeptBy(a).fields + KeptBy(b).fields;
    assert SomeSpecPath(a + b) <==> SomeSpecPath(a) || SomeSpecPath(b);
  }

  /** A path below "spec" keeps its own field, if it names one, and an otherwise empty specification. */
  lemma OneSpecPath(path: string)
    requires IsSpecPath(path)
    ensures KeptBy({path}).spec
    ensures forall f :: f in KeptBy({path}).fields <==> PathOf(f) == path
  {
    assert path in {path};
    forall f ensures f in KeptBy({path}).fields <==> PathOf(f) == path {
      AllFields(f);
    }
  }

  lemma AllFields(f: Field)
    ensures f in FIELDS
  {
    match f
    case _ =>
  }

  /** Beside "spec", the paths below it say nothing. */
  lemma SpecDominates(paths: set<string>, path: string)
    requires SPEC in paths && IsSpecPath(path)
    ensures KeptBy(paths + {path}) == KeptBy(paths)
  {
    OneSpecPath(path);
    UnionJoins(paths, {path});
    forall f | f in KeptBy({path}).fields ensures f in KeptBy(paths).fields {
      BelowSpec(f);
    }
    assert KeptBy(paths).fields + KeptBy({path}).fields == KeptBy(paths).fields;
  }

  lemma BelowSpec(f: Field)
    ensures IsSpecPath(PathOf(f)) <==> InSpec(f)
  {
    var path := PathOf(f);
    if IsSpecPath(path) {
      assert path[1] == 'p' && path[4] == '.';
    }
  }

  /** A list that holds only blank paths is not an empty list: nothing is kept. */
  lemma BlankKeepsNothing(paths: seq<string>)
    requires paths != [] && forall p :: p in paths ==> Trim(p) == ""
    ensures KeptUnder(Some(paths)) == Kept({}, false)
  {
    assert Normalized(paths) == {};
  }

  const SAMPLE := Message(1, "n", "d", 1, 1, Some(ProductSpec(1, 1, 1, "i", "c")))

  lemma SampleTells(a: Kept, b: Kept)
    requires Proper(a) && Proper(b) && Project(SAMPLE, a) == Project(SAMPLE, b)
    ensures a == b
  {
    SampleShows(a);
    SampleShows(b);
    assert a.fields == b.fields;
  }

  /** What the sample looks like through a mask tells which fields the mask keeps. */
  function Shown(m: Message): set<Field> {
    set f | f in FIELDS && Shows(m, f)
  }

  predicate Shows(m: Message, f: Field) {
    match f
    case Id => m.id != 0
    case Name => m.name != ""
    case Description => m.description != ""
    case Status => m.status != 0
    case Price => m.price != 0
    case Cpu => m.spec.Some? && m.spec.value.cpu != 0
    case Memory => m.spec.Some? && m.spec.value.memory != 0
    case Gpu => m.spec.Some? && m.spec.value.gpu != 0
    case Image => m.spec.Some? && m.spec.value.image != ""
    case ConfigJson => m.spec.Some? && m.spec.value.configJson != ""
  }

  lemma SampleShows(k: Kept)
    requires Proper(k)
    ensures Shown(Project(SAMPLE, k)) == k.fields && Project(SAMPLE, k).spec.Some? == k.spec
  {
    forall f | f in FIELDS ensures Shows(Project(SAMPLE, k), f) <==> f in k.fields {}
  }

  /** Two masks act alike on every product exactly when they keep the same. */
  lemma SameEffectIff(a: Option<seq<string>>, b: Option<seq<string>>)
    ensures (forall m :: Masked(m, a) == Masked(m, b)) <==> KeptUnder(a) == KeptUnder(b)
  {
    KeptIsProper(a);
    KeptIsProper(b);
    if forall m :: Masked(m, a) == Masked(m, b) {
      assert Masked(Some(SAMPLE), a) == Masked(Some(SAMPLE), b);
      SampleTells(KeptUnder(a), KeptUnder(b));
    }
  }

  /** Paths that keep exactly `k`. */
  function PathsFor(k: Kept): set<string> {
    (set f | f in k.fields :: PathOf(f)) + (if k.spec then {"spec."} else {})
  }

  lemma PathsForKeep(k: Kept)
    requires Proper(k)
    ensures KeptBy(PathsFor(k)) == k
  {
    forall f | f in FIELDS ensures PathOf(f) in PathsFor(k) <==> f in k.fields {
      PathsDiffer(f);
    }
    NotWholeSpec(k);
    assert KeptBy(PathsFor(k)).fields == k.fields;
    SpecPathsFor(k);
  }

  lemma NotWholeSpec(k: Kept)
    ensures SPEC !in PathsFor(k)
  {
    forall f ensures PathOf(f) != SPEC {
      PathsDiffer(f);
    }
  }

  lemma SpecPathsFor(k: Kept)
    requires Proper(k)
    ensures SomeSpecPath(PathsFor(k)) <==> k.spec
  {
    if k.spec {
      assert IsSpecPath("spec.");
      assert "spec." in PathsFor(k);
    }
    forall p | p in PathsFor(k) && IsSpecPath(p) ensures k.spec {
      if !k.spec {
        var f :| f in k.fields && PathOf(f) == p;
        BelowSpec(f);
      }
    }
  }

  lemma PathsForTrimmed(k: Kept)
    ensures forall p :: p in PathsFor(k) ==> p != "" && Trim(p) == p
  {
    forall p | p in PathsFor(k) ensures p != "" && Trim(p) == p {
      TrimNothing(p);
    }
  }

  lemma PathsDiffer(f: Field)
    ensures PathOf(f) != "spec." && PathOf(f) != SPEC
    ensures forall g :: PathOf(g) == PathOf(f) ==> g == f
  {}

  lemma {:induction false} ListOf(paths: set<string>) returns (list: seq<string>)
    ensures forall p :: p in list <==> p in paths
  {
    list := [];
    if paths != {} {
      var path: string :| path in paths;
      list := ListOf(paths - {path});
      list := list + [path];
    }
  }

  /** The masks are closed under composition: one mask always does the work of two. */
  lemma Combined(a: Option<seq<string>>, b: Option<seq<string>>) returns (c: Option<seq<string>>)
    ensures KeptUnder(c) == Meet(KeptUnder(a), KeptUnder(b))
    ensures forall m :: Masked(Masked(m, a), b) == Masked(m, c)
  {
    KeptIsProper(a);
    KeptIsProper(b);
    var k := Meet(KeptUnder(a), KeptUnder(b));
    PathsForKeep(k);
    PathsForTrimmed(k);
    var list := ListOf(PathsFor(k));
    c := Some(list + [""]);
    ListNormalized(list, PathsFor(k));
    forall m ensures Masked(Masked(m, a), b) == Masked(m, c) {
      if m.Some? {
        Compose(m.value, KeptUnder(a), KeptUnder(b));
      }
    }
  }

  lemma ListNormalized(list: seq<string>, paths: set<string>)
    requires forall p :: p in list <==> p in paths
    requires forall p :: p in paths ==> p != "" && Trim(p) == p
    ensures Normalized(list + [""]) == paths
  {
    assert Trim("") == "";
  }
}
