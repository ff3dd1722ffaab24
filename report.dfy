// `aggregate_edges`: node and edge counts over a directory of PFB files,
// and the pivot of the node counts by entity and file stem. Each file is
// given as its path and the records the Avro reader yields; the three TSV
// files are given as their rows.

module Report {

  import opened Text
  import Inflection
  import Pfb

  datatype PfbFile = PfbFile(path: string, records: seq<Pfb.Record>)

  /** The name of the record every PFB file starts with. */
  const Metadata := "Metadata"

  type Tallies = map<string, map<string, nat>>

  type EdgeFiles = map<string, map<string, set<string>>>

  // ---------------------------------------------------------------------
  // Node counts

  function Bump(c: map<string, nat>, n: string): map<string, nat>
  {
    c[n := (if n in c then c[n] else 0) + 1]
  }

  /** The counts `c` after the records `rs`, skipping `Metadata`. */
  function Tally(c: map<string, nat>, rs: seq<Pfb.Record>): map<string, nat>
  {
    if rs == [] then c
    else
      var t := Tally(c, rs[..|rs| - 1]);
      if rs[|rs| - 1].name == Metadata then t else Bump(t, rs[|rs| - 1].name)
  }

  /** Some record is not the metadata record. */
  predicate HasEntities(rs: seq<Pfb.Record>)
  {
    rs != [] && (HasEntities(rs[..|rs| - 1]) || rs[|rs| - 1].name != Metadata)
  }

  function Slot(m: Tallies, p: string): map<string, nat>
  {
    if p in m then m[p] else map[]
  }

  /** `aggregated_node_counts` after the records `rs` of the file at `p`. */
  function CountFile(m: Tallies, p: string, rs: seq<Pfb.Record>): Tallies
  {
    if rs == [] then m
    else
      var t := CountFile(m, p, rs[..|rs| - 1]);
      var last := rs[|rs| - 1];
      if last.name == Metadata then t else t[p := Bump(Slot(t, p), last.name)]
  }

  /** `aggregated_node_counts` after the files `files`. */
  function NodeCounts(files: seq<PfbFile>): Tallies
  {
    if files == [] then map[]
    else CountFile(NodeCounts(files[..|files| - 1]), files[|files| - 1].path, files[|files| - 1].records)
  }

  /** The records of every file at path `p`, in order. */
  function RecordsAt(files: seq<PfbFile>, p: string): seq<Pfb.Record>
  {
    if files == [] then []
    else RecordsAt(files[..|files| - 1], p) + (if files[|files| - 1].path == p then files[|files| - 1].records else [])
  }

  /** A name's count is its number of records, and `Metadata` is never
      counted. */
  lemma {:induction false} TallyCounts(c: map<string, nat>, rs: seq<Pfb.Record>, n: string)
    ensures n in Tally(c, rs) <==> n in c || (n != Metadata && Pfb.CountNamed(rs, n) > 0)
    ensures n in Tally(c, rs) ==>
              Tally(c, rs)[n] == (if n in c then c[n] else 0) + (if n == Metadata then 0 else Pfb.CountNamed(rs, n))
  {
    if rs != [] {
      TallyCounts(c, rs[..|rs| - 1], n);
    }
  }

  lemma {:induction false} TallyNothing(c: map<string, nat>, rs: seq<Pfb.Record>)
    requires !HasEntities(rs)
    ensures Tally(c, rs) == c
  {
    if rs != [] {
      TallyNothing(c, rs[..|rs| - 1]);
    }
  }

  lemma {:induction false} TallyAppend(c: map<string, nat>, a: seq<Pfb.Record>, b: seq<Pfb.Record>)
    ensures Tally(c, a + b) == Tally(Tally(c, a), b)
    ensures HasEntities(a + b) <==> HasEntities(a) || HasEntities(b)
  {
    if b == [] {
      assert a + b == a;
    } else {
      assert (a + b)[..|a + b| - 1] == a + b[..|b| - 1];
      TallyAppend(c, a, b[..|b| - 1]);
    }
  }

  /** One file adds its tally under its path, if it has any entity. */
  lemma {:induction false} CountFileIs(m: Tallies, p: string, rs: seq<Pfb.Record>)
    ensures CountFile(m, p, rs) == if HasEntities(rs) then m[p := Tally(Slot(m, p), rs)] else m
  {
    if rs != [] {
      var init := rs[..|rs| - 1];
      CountFileIs(m, p, init);
      if rs[|rs| - 1].name != Metadata && !HasEntities(init) {
        TallyNothing(Slot(m, p), init);
      }
    }
  }

  /** `aggregated_node_counts[p]` is the tally of the records at `p`, and
      exists exactly when those hold an entity. */
  lemma {:induction false} NodeCountsAt(files: seq<PfbFile>, p: string)
    ensures p in NodeCounts(files) <==> HasEntities(RecordsAt(files, p))
    ensures p in NodeCounts(files) ==> NodeCounts(files)[p] == Tally(map[], RecordsAt(files, p))
  {
    if files != [] {
      var init := files[..|files| - 1];
      var last := files[|files| - 1];
      NodeCountsAt(init, p);
      CountFileIs(NodeCounts(init), last.path, last.records);
      if last.path == p {
        var a := RecordsAt(init, p);
        assert RecordsAt(files, p) == a + last.records;
        TallyAppend(map[], a, last.records);
        if !HasEntities(a) {
          TallyNothing(map[], a);
          assert Slot(NodeCounts(init), p) == map[] == Tally(map[], a);
        } else {
          assert Slot(NodeCounts(init), p) == Tally(map[], a);
          if !HasEntities(last.records) {
            TallyNothing(Tally(map[], a), last.records);
          }
        }
      } else {
        assert RecordsAt(files, p) == RecordsAt(init, p) + [] == RecordsAt(init, p);
        assert p in NodeCounts(files) <==> p in NodeCounts(init);
        assert p in NodeCounts(files) ==> NodeCounts(files)[p] == NodeCounts(init)[p];
      }
    }
  }

  /** The node count of `n` in the file at `p` is its number of records
      there, and `Metadata` records count nowhere. */
  lemma NodeCountsMeaning(files: seq<PfbFile>, p: string, n: string)
    ensures p in NodeCounts(files) && n in NodeCounts(files)[p]
            <==> n != Metadata && Pfb.CountNamed(RecordsAt(files, p), n) > 0
    ensures p in NodeCounts(files) && n in NodeCounts(files)[p] ==>
              NodeCounts(files)[p][n] == Pfb.CountNamed(RecordsAt(files, p), n)
  {
    NodeCountsAt(files, p);
    TallyCounts(map[], RecordsAt(files, p), n);
    if n != Metadata && Pfb.CountNamed(RecordsAt(files, p), n) > 0 && !HasEntities(RecordsAt(files, p)) {
      TallyNothing(map[], RecordsAt(files, p));
    }
  }

  // ---------------------------------------------------------------------
  // Edges

  /** The files stored for `src` -> `dst`. */
  function Files(e: EdgeFiles, src: string, dst: string): set<string>
  {
    if src in e && dst in e[src] then e[src][dst] else {}
  }

  predicate Linked(e: EdgeFiles, src: string, dst: string)
  {
    src in e && dst in e[src]
  }

  function Link(e: EdgeFiles, src: string, dst: string, p: string): EdgeFiles
  {
    e[src := (if src in e then e[src] else map[])[dst := Files(e, src, dst) + {p}]]
  }

  /** The edges after the relations `rels` of a record named `src`. */
  function LinkAll(e: EdgeFiles, src: string, rels: seq<Pfb.Relation>, p: string): EdgeFiles
  {
    if rels == [] then e else Link(LinkAll(e, src, rels[..|rels| - 1], p), src, rels[|rels| - 1].dstName, p)
  }

  /** The edges after the records `rs` of the file at `p`. */
  function EdgeFile(e: EdgeFiles, p: string, rs: seq<Pfb.Record>): EdgeFiles
  {
    if rs == [] then e
    else
      var t := EdgeFile(e, p, rs[..|rs| - 1]);
      var last := rs[|rs| - 1];
      if last.name == Metadata then t else LinkAll(t, last.name, last.relations, p)
  }

  /** `aggregated_edge_counts` after the files `files`. */
  function EdgeCounts(files: seq<PfbFile>): EdgeFiles
  {
    if files == [] then map[]
    else EdgeFile(EdgeCounts(files[..|files| - 1]), files[|files| - 1].path, files[|files| - 1].records)
  }

  /** Some record named `src` in `rs` has a relation to `dst`. */
  predicate Relates(rs: seq<Pfb.Record>, src: string, dst: string)
  {
    src != Metadata && dst in Pfb.Dsts(Pfb.AllRelations(rs, src))
  }

  /** The paths of the files in which `src` -> `dst` occurs. */
  function FilesWith(files: seq<PfbFile>, src: string, dst: string): set<string>
  {
    if files == [] then {}
    else
      FilesWith(files[..|files| - 1], src, dst)
      + (if Relates(files[|files| - 1].records, src, dst) then {files[|files| - 1].path} else {})
  }

  lemma {:induction false} DstsAppend(a: seq<Pfb.Relation>, b: seq<Pfb.Relation>)
    ensures Pfb.Dsts(a + b) == Pfb.Dsts(a) + Pfb.Dsts(b)
  {
    if b == [] {
      assert a + b == a;
    } else {
      assert (a + b)[..|a + b| - 1] == a + b[..|b| - 1];
      DstsAppend(a, b[..|b| - 1]);
    }
  }

  lemma {:induction false} LinkAllAt(e: EdgeFiles, src: string, rels: seq<Pfb.Relation>, p: string, s: string, d: string)
    ensures var hit := s == src && d in Pfb.Dsts(rels);
            && (Linked(LinkAll(e, src, rels, p), s, d) <==> Linked(e, s, d) || hit)
            && Files(LinkAll(e, src, rels, p), s, d) == Files(e, s, d) + (if hit then {p} else {})
  {
    if rels != [] {
      LinkAllAt(e, src, rels[..|rels| - 1], p, s, d);
    }
  }

  lemma {:induction false} EdgeFileAt(e: EdgeFiles, p: string, rs: seq<Pfb.Record>, s: string, d: string)
    ensures && (Linked(EdgeFile(e, p, rs), s, d) <==> Linked(e, s, d) || Relates(rs, s, d))
            && Files(EdgeFile(e, p, rs), s, d) == Files(e, s, d) + (if Relates(rs, s, d) then {p} else {})
  {
    if rs != [] {
      var init := rs[..|rs| - 1];
      var last := rs[|rs| - 1];
      EdgeFileAt(e, p, init, s, d);
      if last.name != Metadata {
        LinkAllAt(EdgeFile(e, p, init), last.name, last.relations, p, s, d);
      }
      if last.name == s {
        DstsAppend(Pfb.AllRelations(init, s), last.relations);
      } else {
        assert Pfb.AllRelations(rs, s) == Pfb.AllRelations(init, s) + [] == Pfb.AllRelations(init, s);
      }
    }
  }

  /** The stored set for `src` -> `dst` is the set of files it occurs in,
      and the pair is stored exactly when there is one. */
  lemma {:induction false} EdgeCountsMeaning(files: seq<PfbFile>, src: string, dst: string)
    ensures Linked(EdgeCounts(files), src, dst) <==> FilesWith(files, src, dst) != {}
    ensures Files(EdgeCounts(files), src, dst) == FilesWith(files, src, dst)
  {
    if files != [] {
      var init := files[..|files| - 1];
      var last := files[|files| - 1];
      EdgeCountsMeaning(init, src, dst);
      EdgeFileAt(EdgeCounts(init), last.path, last.records, src, dst);
    }
  }

  // ---------------------------------------------------------------------
  // The two count tables

  datatype EdgeRow = EdgeRow(source: string, target: string, sourceCount: nat, edgeCount: nat)

  datatype NodeRow = NodeRow(path: string, entity: string, count: nat)

  const EdgeHeader := "source\ttarget\tsource_count\tedge_count"

  const NodeHeader := "file_path\tentity\tcount"

  /** The edge count the code writes: `aggregated_node_counts` is keyed by
      file paths, and a path never equals an entity name, so the lookup
      finds a fresh empty dict. */
  function EdgeCountAsWritten(nc: Tallies, source: string): nat
  {
    0
  }

  /** The number of files in which `source` has a record. */
  function EdgeCount(nc: Tallies, source: string): nat
  {
    |set p | p in nc && source in nc[p]|
  }

  function EdgeRowsAsWritten(e: EdgeFiles, nc: Tallies): set<EdgeRow>
  {
    set s, d | s in e && d in e[s] :: EdgeRow(s, d, |e[s][d]|, EdgeCountAsWritten(nc, s))
  }

  function EdgeRows(e: EdgeFiles, nc: Tallies): set<EdgeRow>
  {
    set s, d | s in e && d in e[s] :: EdgeRow(s, d, |e[s][d]|, EdgeCount(nc, s))
  }

  function NodeRows(nc: Tallies): set<NodeRow>
  {
    set p, n | p in nc && n in nc[p] :: NodeRow(p, n, nc[p][n])
  }

  function EdgeLine(r: EdgeRow): string
  {
    r.source + "\t" + r.target + "\t" + NatToString(r.sourceCount) + "\t" + NatToString(r.edgeCount)
  }

  /** Every row the code writes has 0 in the `edge_count` column. */
  lemma EdgeCountAlwaysZero(files: seq<PfbFile>, r: EdgeRow)
    requires r in EdgeRowsAsWritten(EdgeCounts(files), NodeCounts(files))
    ensures r.edgeCount == 0
  {
  }

  /** One Patient record related to a Specimen: the code writes
      `Patient	Specimen	1	0`, though Patient occurs in one file. */
  lemma EdgeCountDiffers()
    ensures var files := [PfbFile("a.avro", [Pfb.Record("Patient", "p1", [Pfb.Relation("Specimen", "s1")])])];
            var e, nc := EdgeCounts(files), NodeCounts(files);
            && EdgeRowsAsWritten(e, nc) == {EdgeRow("Patient", "Specimen", 1, 0)}
            && EdgeRows(e, nc) == {EdgeRow("Patient", "Specimen", 1, 1)}
  {
    var rec := Pfb.Record("Patient", "p1", [Pfb.Relation("Specimen", "s1")]);
    var files := [PfbFile("a.avro", [rec])];
    assert files[..0] == [] && [rec][..0] == [] && rec.relations[..0] == [];
    assert "Patient" != Metadata;
    var e := map["Patient" := map["Specimen" := {"a.avro"}]];
    assert Files(map[], "Patient", "Specimen") + {"a.avro"} == {"a.avro"};
    var inner: map<string, set<string>> := map[];
    assert inner["Specimen" := {"a.avro"}] == map["Specimen" := {"a.avro"}];
    assert Link(map[], "Patient", "Specimen", "a.avro") == e;
    assert LinkAll(map[], "Patient", rec.relations, "a.avro") == e;
    assert EdgeFile(map[], "a.avro", [rec]) == e;
    assert EdgeCounts(files) == e;
    var nc := map["a.avro" := map["Patient" := 1]];
    assert CountFile(map[], "a.avro", [rec]) == nc;
    assert NodeCounts(files) == nc;
    assert (set p | p in nc && "Patient" in nc[p]) == {"a.avro"};
    assert forall s, d :: s in e && d in e[s] ==> s == "Patient" && d == "Specimen";
    assert |e["Patient"]["Specimen"]| == 1;
    assert EdgeRow("Patient", "Specimen", 1, 0) in EdgeRowsAsWritten(e, nc);
    assert EdgeRowsAsWritten(e, nc) == {EdgeRow("Patient", "Specimen", 1, 0)};
    assert EdgeRow("Patient", "Specimen", 1, 1) in EdgeRows(e, nc);
    assert EdgeRows(e, nc) == {EdgeRow("Patient", "Specimen", 1, 1)};
  }

  /** The node rows are the node counts, one row per (file, entity). */
  lemma NodeRowsMeaning(files: seq<PfbFile>, p: string, n: string, k: nat)
    ensures NodeRow(p, n, k) in NodeRows(NodeCounts(files))
            <==> n != Metadata && Pfb.CountNamed(RecordsAt(files, p), n) == k && k > 0
  {
    NodeCountsMeaning(files, p, n);
  }

  /** Each edge row counts the files its edge occurs in, and the files its
      source occurs in. */
  lemma EdgeRowsMeaning(files: seq<PfbFile>, src: string, dst: string)
    ensures FilesWith(files, src, dst) != {} ==>
              EdgeRow(src, dst, |FilesWith(files, src, dst)|, EdgeCount(NodeCounts(files), src))
              in EdgeRows(EdgeCounts(files), NodeCounts(files))
    ensures FilesWith(files, src, dst) == {} ==>
              forall r :: r in EdgeRows(EdgeCounts(files), NodeCounts(files)) ==> r.source != src || r.target != dst
  {
    EdgeCountsMeaning(files, src, dst);
  }

  // ---------------------------------------------------------------------
  // Key order

  /** `xs` without its repeats, each kept at its first occurrence: the
      order in which a dict gains keys set in the order `xs`. */
  function Dedup<T(==, !new)>(xs: seq<T>): (r: seq<T>)
    ensures forall x :: x in r <==> x in xs
    ensures forall i, j :: 0 <= i < j < |r| ==> r[i] != r[j]
  {
    if xs == [] then []
    else
      var d := Dedup(xs[..|xs| - 1]);
      assert xs == xs[..|xs| - 1] + [xs[|xs| - 1]];
      if xs[|xs| - 1] in d then d else d + [xs[|xs| - 1]]
  }

  /** The pairs of `p` with each of `ns`. */
  function Tag(p: string, ns: seq<string>): (r: seq<(string, string)>)
    ensures |r| == |ns| && forall i :: 0 <= i < |r| ==> r[i] == (p, ns[i])
  {
    seq(|ns|, i requires 0 <= i < |ns| => (p, ns[i]))
  }

  /** A dict of dicts walked key by key: each outer key of `ps` with each
      inner key of `inner(p)`, the inner keys in their own insertion
      order. */
  function Grouped(ps: seq<string>, inner: string -> seq<string>): seq<(string, string)>
  {
    if ps == [] then []
    else Grouped(ps[..|ps| - 1], inner) + Tag(ps[|ps| - 1], Dedup(inner(ps[|ps| - 1])))
  }

  lemma {:induction false} GroupedIff(ps: seq<string>, inner: string -> seq<string>, q: (string, string))
    ensures q in Grouped(ps, inner) <==> q.0 in ps && q.1 in inner(q.0)
  {
    if ps != [] {
      var init, p := ps[..|ps| - 1], ps[|ps| - 1];
      GroupedIff(init, inner, q);
      assert ps == init + [p];
      if q in Tag(p, Dedup(inner(p))) {
        var i :| 0 <= i < |Dedup(inner(p))| && Tag(p, Dedup(inner(p)))[i] == q;
      }
      if q.0 == p && q.1 in inner(p) {
        var i :| 0 <= i < |Dedup(inner(p))| && Dedup(inner(p))[i] == q.1;
        assert Tag(p, Dedup(inner(p)))[i] == q;
      }
    }
  }

  lemma {:induction false} GroupedDistinct(ps: seq<string>, inner: string -> seq<string>)
    requires forall i, j :: 0 <= i < j < |ps| ==> ps[i] != ps[j]
    ensures var g := Grouped(ps, inner); forall i, j :: 0 <= i < j < |g| ==> g[i] != g[j]
  {
    if ps != [] {
      var init, p := ps[..|ps| - 1], ps[|ps| - 1];
      GroupedDistinct(init, inner);
      var a, b := Grouped(init, inner), Tag(p, Dedup(inner(p)));
      forall i | 0 <= i < |a| ensures a[i].0 != p {
        GroupedIff(init, inner, a[i]);
        var k :| 0 <= k < |init| && init[k] == a[i].0;
        assert ps[k] == init[k];
      }
      var g := a + b;
      forall i, j | 0 <= i < j < |g| ensures g[i] != g[j] {
        if j >= |a| && i < |a| {
          assert g[i].0 != p == g[j].0;
        }
      }
    }
  }

  /** All records of all files, in order. */
  function AllRecords(files: seq<PfbFile>): seq<Pfb.Record>
  {
    if files == [] then [] else AllRecords(files[..|files| - 1]) + files[|files| - 1].records
  }

  /** The names of the records that are not `Metadata`, in order. */
  function EntityNames(rs: seq<Pfb.Record>): (r: seq<string>)
    ensures forall n :: n in r <==> n != Metadata && Pfb.CountNamed(rs, n) > 0
  {
    if rs == [] then []
    else EntityNames(rs[..|rs| - 1]) + (if rs[|rs| - 1].name == Metadata then [] else [rs[|rs| - 1].name])
  }

  /** The paths of the files that hold an entity, in order. */
  function EntityPaths(files: seq<PfbFile>): seq<string>
  {
    if files == [] then []
    else EntityPaths(files[..|files| - 1]) + (if HasEntities(files[|files| - 1].records) then [files[|files| - 1].path] else [])
  }

  lemma {:induction false} EntityPathsIff(files: seq<PfbFile>, p: string)
    ensures p in EntityPaths(files) <==> HasEntities(RecordsAt(files, p))
  {
    if files != [] {
      var init, last := files[..|files| - 1], files[|files| - 1];
      EntityPathsIff(init, p);
      TallyAppend(map[], RecordsAt(init, p), if last.path == p then last.records else []);
      if last.path != p {
        assert RecordsAt(files, p) == RecordsAt(init, p) + [];
      }
    }
  }

  /** The (file, entity) pairs in the order `aggregated_node_counts`
      yields them: the paths at the first file that adds an entity, and
      each path's entities at their first record. */
  function NodeOrder(files: seq<PfbFile>): seq<(string, string)>
  {
    Grouped(Dedup(EntityPaths(files)), p => EntityNames(RecordsAt(files, p)))
  }

  /** The node order holds each (file, entity) pair once. */
  lemma NodeOrderPairs(files: seq<PfbFile>)
    ensures forall q :: q in NodeOrder(files) <==> q in Pairs(NodeCounts(files))
    ensures var os := NodeOrder(files); forall i, j :: 0 <= i < j < |os| ==> os[i] != os[j]
  {
    var inner := p => EntityNames(RecordsAt(files, p));
    GroupedDistinct(Dedup(EntityPaths(files)), inner);
    forall q ensures q in NodeOrder(files) <==> q in Pairs(NodeCounts(files)) {
      GroupedIff(Dedup(EntityPaths(files)), inner, q);
      EntityPathsIff(files, q.0);
      NodeCountsMeaning(files, q.0, q.1);
      NodeCountsAt(files, q.0);
      assert q in Pairs(NodeCounts(files)) <==> q.0 in NodeCounts(files) && q.1 in NodeCounts(files)[q.0];
    }
  }

  /** The names of the records that are not `Metadata` and have a
      relation, in order: where `aggregated_edge_counts` gains a key. */
  function RelatingNames(rs: seq<Pfb.Record>): seq<string>
  {
    if rs == [] then []
    else
      var last := rs[|rs| - 1];
      RelatingNames(rs[..|rs| - 1]) + (if last.name != Metadata && last.relations != [] then [last.name] else [])
  }

  /** The destinations of relations, in order. */
  function DstNames(rels: seq<Pfb.Relation>): (r: seq<string>)
    ensures forall d :: d in r <==> d in Pfb.Dsts(rels)
  {
    if rels == [] then [] else DstNames(rels[..|rels| - 1]) + [rels[|rels| - 1].dstName]
  }

  /** The (source, target) pairs in the order `aggregated_edge_counts`
      yields them: sources at their first record with a relation, over all
      files, and each source's targets at their first relation. */
  function EdgeOrder(files: seq<PfbFile>): seq<(string, string)>
  {
    var rs := AllRecords(files);
    Grouped(Dedup(RelatingNames(rs)), s => DstNames(Pfb.AllRelations(rs, s)))
  }

  lemma {:induction false} RelatesAll(files: seq<PfbFile>, s: string, d: string)
    ensures Relates(AllRecords(files), s, d) <==> FilesWith(files, s, d) != {}
  {
    if files != [] {
      var init, last := files[..|files| - 1], files[|files| - 1];
      RelatesAll(init, s, d);
      AllRelationsAppend(AllRecords(init), last.records, s);
      DstsAppend(Pfb.AllRelations(AllRecords(init), s), Pfb.AllRelations(last.records, s));
    }
  }

  lemma {:induction false} AllRelationsAppend(a: seq<Pfb.Record>, b: seq<Pfb.Record>, n: string)
    ensures Pfb.AllRelations(a + b, n) == Pfb.AllRelations(a, n) + Pfb.AllRelations(b, n)
  {
    if b == [] {
      assert a + b == a;
    } else {
      assert (a + b)[..|a + b| - 1] == a + b[..|b| - 1];
      AllRelationsAppend(a, b[..|b| - 1], n);
    }
  }

  lemma {:induction false} RelatingIff(rs: seq<Pfb.Record>, s: string, d: string)
    requires Relates(rs, s, d)
    ensures s in RelatingNames(rs)
  {
    var init, last := rs[..|rs| - 1], rs[|rs| - 1];
    if !(last.name == s && last.relations != []) {
      assert Pfb.AllRelations(rs, s) == Pfb.AllRelations(init, s) + [] == Pfb.AllRelations(init, s);
      RelatingIff(init, s, d);
    }
  }

  /** The edge order holds each stored (source, target) pair once. */
  lemma EdgeOrderPairs(files: seq<PfbFile>)
    ensures forall s, d :: (s, d) in EdgeOrder(files) <==> Linked(EdgeCounts(files), s, d)
    ensures var os := EdgeOrder(files); forall i, j :: 0 <= i < j < |os| ==> os[i] != os[j]
  {
    var rs := AllRecords(files);
    var inner := s => DstNames(Pfb.AllRelations(rs, s));
    GroupedDistinct(Dedup(RelatingNames(rs)), inner);
    forall s, d ensures (s, d) in EdgeOrder(files) <==> Linked(EdgeCounts(files), s, d) {
      GroupedIff(Dedup(RelatingNames(rs)), inner, (s, d));
      RelatesAll(files, s, d);
      EdgeCountsMeaning(files, s, d);
      if Relates(rs, s, d) {
        RelatingIff(rs, s, d);
      }
      if s in RelatingNames(rs) {
        RelatingNamed(rs, s);
      }
    }
  }

  lemma {:induction false} RelatingNamed(rs: seq<Pfb.Record>, s: string)
    requires s in RelatingNames(rs)
    ensures s != Metadata
  {
    var init, last := rs[..|rs| - 1], rs[|rs| - 1];
    if s in RelatingNames(init) {
      RelatingNamed(init, s);
    }
  }

  /** The count under a pair, 0 for one that is not there. */
  function CountOf(nc: Tallies, q: (string, string)): nat
  {
    if q.0 in nc && q.1 in nc[q.0] then nc[q.0][q.1] else 0
  }

  /** The rows of a node table in the order `os`. */
  function NodeTable(nc: Tallies, os: seq<(string, string)>): (r: seq<NodeRow>)
    ensures |r| == |os|
  {
    seq(|os|, i requires 0 <= i < |os| => NodeRow(os[i].0, os[i].1, CountOf(nc, os[i])))
  }

  /** The rows of an edge table in the order `os`. */
  function EdgeTable(e: EdgeFiles, nc: Tallies, os: seq<(string, string)>): (r: seq<EdgeRow>)
    ensures |r| == |os|
  {
    seq(|os|, i requires 0 <= i < |os| => EdgeRow(os[i].0, os[i].1, |Files(e, os[i].0, os[i].1)|, EdgeCount(nc, os[i].0)))
  }

  /** `aggregated_node_counts.tsv` lists every node row once, in the dict's
      order. */
  lemma NodeTableRows(files: seq<PfbFile>)
    ensures var t := NodeTable(NodeCounts(files), NodeOrder(files));
            && (forall r :: r in t <==> r in NodeRows(NodeCounts(files)))
            && (forall i, j :: 0 <= i < j < |t| ==> t[i] != t[j])
  {
    NodeOrderPairs(files);
    NodeTableOf(NodeCounts(files), NodeOrder(files));
  }

  lemma NodeTableOf(nc: Tallies, os: seq<(string, string)>)
    requires forall q :: q in os <==> q in Pairs(nc)
    requires forall i, j :: 0 <= i < j < |os| ==> os[i] != os[j]
    ensures var t := NodeTable(nc, os);
            && (forall r :: r in t <==> r in NodeRows(nc))
            && (forall i, j :: 0 <= i < j < |t| ==> t[i] != t[j])
  {
    var t := NodeTable(nc, os);
    forall r | r in t ensures r in NodeRows(nc) {
      var i :| 0 <= i < |t| && t[i] == r;
      assert os[i] in Pairs(nc);
      var p, n := os[i].0, os[i].1;
      assert p in nc && n in nc[p] && r == NodeRow(p, n, nc[p][n]);
    }
    forall r | r in NodeRows(nc) ensures r in t {
      var p, n :| p in nc && n in nc[p] && r == NodeRow(p, n, nc[p][n]);
      assert (p, n) in Pairs(nc);
      var i :| 0 <= i < |os| && os[i] == (p, n);
      assert t[i] == r;
    }
    forall i, j | 0 <= i < j < |t| ensures t[i] != t[j] {
      assert os[i] != os[j];
    }
  }

  /** `aggregated_edge_counts.tsv` lists every edge row once, in the dict's
      order. */
  lemma EdgeTableRows(files: seq<PfbFile>)
    ensures var t := EdgeTable(EdgeCounts(files), NodeCounts(files), EdgeOrder(files));
            && (forall r :: r in t <==> r in EdgeRows(EdgeCounts(files), NodeCounts(files)))
            && (forall i, j :: 0 <= i < j < |t| ==> t[i] != t[j])
  {
    var e, nc, os := EdgeCounts(files), NodeCounts(files), EdgeOrder(files);
    var t := EdgeTable(e, nc, os);
    EdgeOrderPairs(files);
    forall r ensures r in t <==> r in EdgeRows(e, nc) {
      if r in t {
        var i :| 0 <= i < |t| && t[i] == r;
        assert os[i] in EdgeOrder(files);
        assert Linked(e, os[i].0, os[i].1);
      }
      if r in EdgeRows(e, nc) {
        var s, d :| s in e && d in e[s] && r == EdgeRow(s, d, |e[s][d]|, EdgeCount(nc, s));
        assert Linked(e, s, d);
        var i :| 0 <= i < |os| && os[i] == (s, d);
        assert t[i] == r;
      }
    }
    forall i, j | 0 <= i < j < |t| ensures t[i] != t[j] {
      assert os[i] != os[j];
    }
  }

  // ---------------------------------------------------------------------
  // Pivot

  /** The position of the last `c` in `s`. */
  function LastIndex(s: string, c: char): (r: Option<nat>)
    ensures r.Some? ==> r.value < |s| && s[r.value] == c && forall j :: r.value < j < |s| ==> s[j] != c
    ensures r.None? ==> forall j :: 0 <= j < |s| ==> s[j] != c
  {
    if s == [] then None
    else if s[|s| - 1] == c then Some(|s| - 1)
    else LastIndex(s[..|s| - 1], c)
  }

  /** `Path(p).stem`: the last component without its last suffix; a
      leading or trailing dot is no suffix. */
  function Stem(p: string): (r: string)
    ensures |r| <= |p|
  {
    var name := match LastIndex(p, '/') case None => p case Some(i) => p[i + 1..];
    match LastIndex(name, '.')
    case Some(i) => if 0 < i < |name| - 1 then name[..i] else name
    case None => name
  }

  /** The (file, entity) pairs of the node counts. */
  function Pairs(nc: Tallies): set<(string, string)>
  {
    set p, n | p in nc && n in nc[p] :: (p, n)
  }

  /** `pivot_aggregated_node_counts`: a cell for every camelised entity
      and file stem that some pair has, holding that pair's count. When two
      pairs share a cell, which one's count it holds is left open. */
  ghost predicate PivotOf(nc: Tallies, pivot: Tallies)
  {
    && (forall q :: q in Pairs(nc) ==> Inflection.Camelize(q.1) in pivot && Stem(q.0) in pivot[Inflection.Camelize(q.1)])
    && (forall en, st :: en in pivot && st in pivot[en] ==>
          exists q :: q in Pairs(nc) && Inflection.Camelize(q.1) == en && Stem(q.0) == st && pivot[en][st] == nc[q.0][q.1])
  }

  /** No two pairs share a cell. */
  ghost predicate NoCollision(nc: Tallies)
  {
    forall q, q' ::
      (q in Pairs(nc) && q' in Pairs(nc) && Inflection.Camelize(q.1) == Inflection.Camelize(q'.1) && Stem(q.0) == Stem(q'.0))
      ==> q == q'
  }

  /** Without collisions every pair's count is in its cell. */
  lemma PivotExact(nc: Tallies, pivot: Tallies, p: string, n: string)
    requires PivotOf(nc, pivot) && NoCollision(nc)
    requires p in nc && n in nc[p]
    ensures Inflection.Camelize(n) in pivot && Stem(p) in pivot[Inflection.Camelize(n)]
    ensures pivot[Inflection.Camelize(n)][Stem(p)] == nc[p][n]
  {
    assert (p, n) in Pairs(nc);
  }

  /** A cell is there exactly when some entity of that name is in some file
      with that stem. */
  lemma PivotCells(nc: Tallies, pivot: Tallies, en: string, st: string)
    requires PivotOf(nc, pivot)
    ensures (en in pivot && st in pivot[en])
            <==> exists p, n :: p in nc && n in nc[p] && Inflection.Camelize(n) == en && Stem(p) == st
  {
    if exists p, n :: p in nc && n in nc[p] && Inflection.Camelize(n) == en && Stem(p) == st {
      var p, n :| p in nc && n in nc[p] && Inflection.Camelize(n) == en && Stem(p) == st;
      assert (p, n) in Pairs(nc);
    }
  }

  /** The cell a (file, entity) pair falls into: its camelised entity and
      its file's stem. */
  function PivotKey(q: (string, string)): (string, string)
  {
    (Inflection.Camelize(q.1), Stem(q.0))
  }

  /** `pivot[en][st] = v` on a dict whose missing rows start empty. */
  function PivotPut(pivot: Tallies, k: (string, string), v: nat): (r: Tallies)
    ensures forall en, st :: en in r && st in r[en] <==> (en, st) == k || (en in pivot && st in pivot[en])
    ensures forall en, st :: en in r && st in r[en] ==> r[en][st] == if (en, st) == k then v else pivot[en][st]
  {
    pivot[k.0 := (if k.0 in pivot then pivot[k.0] else map[])[k.1 := v]]
  }

  /** The dict after setting the cells `cs` in turn. */
  function PutCells(cs: seq<((string, string), nat)>): Tallies
  {
    if cs == [] then map[] else PivotPut(PutCells(cs[..|cs| - 1]), cs[|cs| - 1].0, cs[|cs| - 1].1)
  }

  /** A cell is set exactly when some entry names it. */
  lemma {:induction false} PutCellsHas(cs: seq<((string, string), nat)>, en: string, st: string)
    ensures var t := PutCells(cs);
            (en in t && st in t[en]) <==> exists i :: 0 <= i < |cs| && cs[i].0 == (en, st)
  {
    if cs != [] {
      var init, n := cs[..|cs| - 1], |cs| - 1;
      PutCellsHas(init, en, st);
      if exists i :: 0 <= i < |cs| && cs[i].0 == (en, st) {
        var i :| 0 <= i < |cs| && cs[i].0 == (en, st);
        if i < n {
          assert init[i] == cs[i];
        }
      }
    }
  }

  /** A cell that is set holds the value of the last entry naming it. */
  lemma {:induction false} PutCellsLast(cs: seq<((string, string), nat)>, en: string, st: string)
    requires var t := PutCells(cs); en in t && st in t[en]
    ensures var t := PutCells(cs);
            exists i :: 0 <= i < |cs| && cs[i] == ((en, st), t[en][st]) && forall j :: i < j < |cs| ==> cs[j].0 != (en, st)
  {
    var init, n := cs[..|cs| - 1], |cs| - 1;
    var t := PutCells(cs);
    if cs[n].0 == (en, st) {
      assert cs[n] == ((en, st), t[en][st]);
    } else {
      assert t[en][st] == PutCells(init)[en][st];
      PutCellsLast(init, en, st);
      var i :| 0 <= i < |init| && init[i] == ((en, st), PutCells(init)[en][st]) && forall j :: i < j < |init| ==> init[j].0 != (en, st);
      assert cs[i] == init[i];
      assert forall j :: i < j < n ==> cs[j] == init[j];
    }
  }

  /** The cells the pairs `os` set: each pair's cell and count. */
  function PivotCellsOf(nc: Tallies, os: seq<(string, string)>): (r: seq<((string, string), nat)>)
    ensures |r| == |os| && forall i :: 0 <= i < |os| ==> r[i] == (PivotKey(os[i]), CountOf(nc, os[i]))
  {
    seq(|os|, i requires 0 <= i < |os| => (PivotKey(os[i]), CountOf(nc, os[i])))
  }

  /** The pivot after setting the cells of the pairs `os` in turn. */
  function PivotSeq(nc: Tallies, os: seq<(string, string)>): Tallies
  {
    PutCells(PivotCellsOf(nc, os))
  }

  /** A cell is there exactly when some pair falls into it, and holds the
      count of the last such pair. */
  lemma PivotLastWins(nc: Tallies, os: seq<(string, string)>, en: string, st: string)
    ensures var pivot := PivotSeq(nc, os);
            (en in pivot && st in pivot[en]) <==> exists i :: 0 <= i < |os| && PivotKey(os[i]) == (en, st)
    ensures var pivot := PivotSeq(nc, os);
            en in pivot && st in pivot[en] ==>
              exists i :: && 0 <= i < |os| && PivotKey(os[i]) == (en, st) && pivot[en][st] == CountOf(nc, os[i])
                          && forall j :: i < j < |os| ==> PivotKey(os[j]) != (en, st)
  {
    var cs := PivotCellsOf(nc, os);
    PutCellsHas(cs, en, st);
    if exists i :: 0 <= i < |os| && PivotKey(os[i]) == (en, st) {
      var i :| 0 <= i < |os| && PivotKey(os[i]) == (en, st);
      assert cs[i].0 == (en, st);
    }
    var pivot := PivotSeq(nc, os);
    if en in pivot && st in pivot[en] {
      PutCellsLast(cs, en, st);
      var i :| 0 <= i < |cs| && cs[i] == ((en, st), pivot[en][st]) && forall j :: i < j < |cs| ==> cs[j].0 != (en, st);
      assert forall j :: i < j < |os| ==> PivotKey(os[j]) == cs[j].0;
    }
  }

  /** Walking every pair once in any order gives a pivot as `PivotOf`
      describes it. */
  lemma PivotDone(nc: Tallies, os: seq<(string, string)>)
    requires forall q :: q in os <==> q in Pairs(nc)
    ensures PivotOf(nc, PivotSeq(nc, os))
  {
    var pivot := PivotSeq(nc, os);
    forall q | q in Pairs(nc)
      ensures Inflection.Camelize(q.1) in pivot && Stem(q.0) in pivot[Inflection.Camelize(q.1)]
    {
      var i :| 0 <= i < |os| && os[i] == q;
      PivotLastWins(nc, os, PivotKey(q).0, PivotKey(q).1);
    }
    forall en, st | en in pivot && st in pivot[en]
      ensures exists q :: q in Pairs(nc) && Inflection.Camelize(q.1) == en && Stem(q.0) == st && pivot[en][st] == nc[q.0][q.1]
    {
      PivotLastWins(nc, os, en, st);
      var i :| 0 <= i < |os| && PivotKey(os[i]) == (en, st) && pivot[en][st] == CountOf(nc, os[i]);
      assert os[i] in Pairs(nc);
    }
  }

  /** The pivot loop over the (file, entity) pairs in the order `os`. */
  method Pivot(nc: Tallies, os: seq<(string, string)>) returns (pivot: Tallies)
    ensures pivot == PivotSeq(nc, os)
  {
    var cs := PivotCellsOf(nc, os);
    pivot := map[];
    var i := 0;
    while i < |cs|
      invariant 0 <= i <= |cs|
      invariant pivot == PutCells(cs[..i])
    {
      assert cs[..i + 1][..i] == cs[..i];
      pivot := PivotPut(pivot, cs[i].0, cs[i].1);
      i := i + 1;
    }
    assert cs[..i] == cs;
  }

  datatype Cell = Blank | Count(n: nat)

  function CellOf(pivot: Tallies, en: string, st: string): Cell
  {
    if en in pivot && st in pivot[en] then Count(pivot[en][st]) else Blank
  }

  function CellText(c: Cell): string
  {
    match c
    case Blank => ""
    case Count(n) => NatToString(n)
  }

  /** `sorted(s)` of a set of strings. */
  method SortedSet(s: set<string>) returns (r: seq<string>)
    ensures SortedStrs(r) && |r| == |s|
    ensures forall x :: x in r <==> x in s
  {
    var xs: seq<string> := [];
    var todo := s;
    while todo != {}
      invariant todo <= s
      invariant forall x :: x in xs <==> x in s && x !in todo
      invariant |xs| + |todo| == |s|
      decreases |todo|
    {
      var x :| x in todo;
      xs := xs + [x];
      todo := todo - {x};
    }
    r := SortStrs(xs);
    SortStrsCorrect(xs);
    forall x ensures x in r <==> x in xs {
      assert x in r <==> x in multiset(r);
      assert x in xs <==> x in multiset(xs);
    }
  }

  /** `rows`: a cell for every sorted entity and every sorted file stem. */
  method PivotRows(pivot: Tallies, entities: seq<string>, stems: seq<string>) returns (rows: map<string, map<string, Cell>>)
    ensures forall en :: en in rows <==> en in entities
    ensures forall en :: en in rows ==> forall st :: st in rows[en] <==> st in stems
    ensures forall en, st :: en in rows && st in rows[en] ==> rows[en][st] == CellOf(pivot, en, st)
  {
    rows := map[];
    var i := 0;
    while i < |entities|
      invariant 0 <= i <= |entities|
      invariant forall en :: en in rows <==> en in entities[..i]
      invariant forall en :: en in rows ==> forall st :: st in rows[en] <==> st in stems
      invariant forall en, st :: en in rows && st in rows[en] ==> rows[en][st] == CellOf(pivot, en, st)
    {
      var en := entities[i];
      var row := PivotRow(pivot, en, stems, if en in rows then rows[en] else map[]);
      rows := rows[en := row];
      assert entities[..i + 1] == entities[..i] + [en];
      i := i + 1;
    }
    assert entities[..i] == entities;
  }

  /** The inner loop of `rows`: the cells of one entity, from `row` on. */
  method PivotRow(pivot: Tallies, en: string, stems: seq<string>, row: map<string, Cell>) returns (r: map<string, Cell>)
    requires forall st :: st in row ==> st in stems && row[st] == CellOf(pivot, en, st)
    ensures forall st :: st in r <==> st in stems
    ensures forall st :: st in r ==> r[st] == CellOf(pivot, en, st)
  {
    r := row;
    var j := 0;
    while j < |stems|
      invariant 0 <= j <= |stems|
      invariant forall st :: st in r ==> st in stems
      invariant forall st :: st in stems[..j] ==> st in r
      invariant forall st :: st in r ==> r[st] == CellOf(pivot, en, st)
    {
      var st := stems[j];
      if en !in pivot || st !in pivot[en] {
        r := r[st := Blank];
      } else {
        r := r[st := Count(pivot[en][st])];
      }
      j := j + 1;
    }
    assert stems[..j] == stems;
  }

  /** The lines of `pivoted_aggregated_node_counts.tsv`. */
  function PivotLines(rows: map<string, map<string, Cell>>, entities: seq<string>, stems: seq<string>): (r: seq<string>)
    requires forall en :: en in entities ==> en in rows && forall st :: st in stems ==> st in rows[en]
    ensures |r| == |entities| + 1
  {
    [Join(["entity"] + stems, "\t")]
    + seq(|entities|, i requires 0 <= i < |entities| =>
            Join([entities[i]] + seq(|stems|, j requires 0 <= j < |stems| => CellText(rows[entities[i]][stems[j]])), "\t"))
  }

  datatype Aggregated = Aggregated(
    edgeRows: seq<EdgeRow>, nodeRows: seq<NodeRow>, pivot: Tallies,
    entities: seq<string>, stems: seq<string>, pivotLines: seq<string>)

  /** The counts under a fixed directory order of the files. */
  method Aggregate(files: seq<PfbFile>) returns (nc: Tallies, e: EdgeFiles)
    ensures nc == NodeCounts(files) && e == EdgeCounts(files)
  {
    nc, e := map[], map[];
    var i := 0;
    while i < |files|
      invariant 0 <= i <= |files|
      invariant nc == NodeCounts(files[..i]) && e == EdgeCounts(files[..i])
    {
      assert files[..i + 1][..i] == files[..i];
      nc, e := ReadFile(nc, e, files[i].path, files[i].records);
      i := i + 1;
    }
    assert files[..i] == files;
  }

  /** The loop over one file's records. */
  method ReadFile(nc: Tallies, e: EdgeFiles, p: string, records: seq<Pfb.Record>) returns (nc': Tallies, e': EdgeFiles)
    ensures nc' == CountFile(nc, p, records) && e' == EdgeFile(e, p, records)
  {
    nc', e' := nc, e;
    var j := 0;
    while j < |records|
      invariant 0 <= j <= |records|
      invariant nc' == CountFile(nc, p, records[..j]) && e' == EdgeFile(e, p, records[..j])
    {
      var record := records[j];
      assert records[..j + 1][..j] == records[..j];
      if record.name != Metadata {
        var counts := if p in nc' then nc'[p] else map[];
        nc' := nc'[p := Bump(counts, record.name)];
        e' := LinkRelations(e', record.name, record.relations, p);
      }
      j := j + 1;
    }
    assert records[..j] == records;
  }

  /** The loop over one record's relations. */
  method LinkRelations(e: EdgeFiles, src: string, rels: seq<Pfb.Relation>, p: string) returns (e': EdgeFiles)
    ensures e' == LinkAll(e, src, rels, p)
  {
    e' := e;
    var k := 0;
    while k < |rels|
      invariant 0 <= k <= |rels|
      invariant e' == LinkAll(e, src, rels[..k], p)
    {
      assert rels[..k + 1][..k] == rels[..k];
      var row := if src in e' then e'[src] else map[];
      var files := if rels[k].dstName in row then row[rels[k].dstName] else {};
      e' := e'[src := row[rels[k].dstName := files + {p}]];
      k := k + 1;
    }
    assert rels[..k] == rels;
  }

  /** The pivot `aggregate_edges` builds is a pivot of its node counts. */
  lemma PivotDoneFiles(files: seq<PfbFile>)
    ensures PivotOf(NodeCounts(files), PivotSeq(NodeCounts(files), NodeOrder(files)))
  {
    NodeOrderPairs(files);
    PivotDone(NodeCounts(files), NodeOrder(files));
  }

  /** The sorted entity names and file stems of a pivot of `nc`, and the
      lines of its table. */
  method PivotTable(nc: Tallies, pivot: Tallies)
    returns (entities: seq<string>, stems: seq<string>, lines: seq<string>)
    ensures SortedStrs(entities) && SortedStrs(stems)
    ensures forall en :: en in entities <==> en in pivot
    ensures forall st :: st in stems <==> exists q :: q in Pairs(nc) && Stem(q.0) == st
    ensures exists rows :: && (forall en :: en in entities ==> en in rows && forall st :: st in stems ==> st in rows[en])
                           && (forall en, st :: en in rows && st in rows[en] ==> rows[en][st] == CellOf(pivot, en, st))
                           && lines == PivotLines(rows, entities, stems)
  {
    entities := SortedSet(pivot.Keys);
    stems := SortedSet(set q | q in Pairs(nc) :: Stem(q.0));
    var rows := PivotRows(pivot, entities, stems);
    lines := PivotLines(rows, entities, stems);
  }

  /** `aggregate_edges` over the files the glob matched, in that order. */
  method AggregateEdges(files: seq<PfbFile>) returns (r: Aggregated)
    ensures r.edgeRows == EdgeTable(EdgeCounts(files), NodeCounts(files), EdgeOrder(files))
    ensures r.nodeRows == NodeTable(NodeCounts(files), NodeOrder(files))
    ensures r.pivot == PivotSeq(NodeCounts(files), NodeOrder(files))
    ensures PivotOf(NodeCounts(files), r.pivot)
    ensures SortedStrs(r.entities) && SortedStrs(r.stems)
    ensures forall en :: en in r.entities <==> en in r.pivot
    ensures forall st :: st in r.stems <==> exists q :: q in Pairs(NodeCounts(files)) && Stem(q.0) == st
    ensures exists rows :: && (forall en :: en in r.entities ==> en in rows && forall st :: st in r.stems ==> st in rows[en])
                           && (forall en, st :: en in rows && st in rows[en] ==> rows[en][st] == CellOf(r.pivot, en, st))
                           && r.pivotLines == PivotLines(rows, r.entities, r.stems)
  {
    var nc, e := Aggregate(files);
    var edgeRows := EdgeTable(e, nc, EdgeOrder(files));
    var nodeRows := NodeTable(nc, NodeOrder(files));
    var pivot := Pivot(nc, NodeOrder(files));
    PivotDoneFiles(files);
    var entities, stems, lines := PivotTable(nc, pivot);
    return Aggregated(edgeRows, nodeRows, pivot, entities, stems, lines);
  }
}
