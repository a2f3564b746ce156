/** The barbers page: each barber from /api/barberos becomes a card whose
    side (odd or even id), type label, schedule and gallery of works follow
    from the barber record and from the cut and beard catalogues. */
module Barberos {
  import opened Text

  /** A cut or a beard of /api/cortes_admin or /api/barbas_admin. */
  datatype Work = Work(id: int, nombre: string, imagen: string)

  /** The four id columns corte1_id..corte4_id (or barba1_id..barba4_id). */
  type Slots = s: seq<Option<int>> | |s| == 4 witness [None, None, None, None]

  /** A row of /api/barberos. */
  datatype Barber = Barber(
    id: int,
    nombre: string,
    tipo: string,
    descripcion: Option<string>,
    imagen: Option<string>,
    horarioManana: Option<string>,
    horarioTarde: Option<string>,
    corteIds: Slots,
    barbaIds: Slots)

  // ---------------------------------------------------------------------
  // Looking up the works of a barber

  /** `[...].filter(id => id != null)`: the ids set in the slots, in slot
      order. */
  function PresentIds(slots: seq<Option<int>>): (ids: seq<int>)
    ensures |ids| <= |slots|
    ensures forall x :: x in ids <==> Some(x) in slots
  {
    if slots == [] then []
    else (if slots[0].Some? then [slots[0].value] else []) + PresentIds(slots[1..])
  }

  /** `all.find(w => w.id === id)`: the first work with that id. */
  function Find(all: seq<Work>, id: int): (r: Option<Work>)
    ensures r.None? <==> forall i :: 0 <= i < |all| ==> all[i].id != id
    ensures r.Some? ==> exists i :: 0 <= i < |all| && all[i] == r.value && r.value.id == id
                                    && forall j :: 0 <= j < i ==> all[j].id != id
  {
    if all == [] then None
    else if all[0].id == id then Some(all[0])
    else Find(all[1..], id)
  }

  /** The works found for `ids`, in id order, skipping the ids that are not
      in the catalogue. Defined from the last id so that it follows the
      forEach + push of barbero.js step by step. */
  function Found(ids: seq<int>, all: seq<Work>): (found: seq<Work>)
    ensures |found| <= |ids|
  {
    if ids == [] then []
    else
      var rest := Found(ids[..|ids| - 1], all);
      match Find(all, ids[|ids| - 1])
      case Some(w) => rest + [w]
      case None => rest
  }

  /** Everything returned comes from the catalogue and answers one of the
      requested ids. */
  lemma {:induction false} FoundSound(ids: seq<int>, all: seq<Work>)
    ensures forall w :: w in Found(ids, all) ==> w in all && w.id in ids
  {
    if ids != [] {
      var init := ids[..|ids| - 1];
      FoundSound(init, all);
      assert forall x :: x in init ==> x in ids;
    }
  }

  /** When every id is in the catalogue, the result has one work per id, in
      the order of the ids. */
  lemma {:induction false} FoundComplete(ids: seq<int>, all: seq<Work>)
    requires forall x :: x in ids ==> Find(all, x).Some?
    ensures |Found(ids, all)| == |ids|
    ensures forall i :: 0 <= i < |ids| ==> Found(ids, all)[i].id == ids[i]
  {
    if ids != [] {
      var init := ids[..|ids| - 1];
      var last := ids[|ids| - 1];
      assert forall x :: x in init ==> x in ids;
      FoundComplete(init, all);
      assert last in ids;
      var w := Find(all, last).value;
      assert Found(ids, all) == Found(init, all) + [w];
      forall i | 0 <= i < |ids| ensures Found(ids, all)[i].id == ids[i] {
        if i < |init| {
          assert Found(ids, all)[i] == Found(init, all)[i];
        }
      }
    }
  }

  /** Ids missing from the catalogue are skipped silently: with none of them
      present the result is empty. */
  lemma {:induction false} FoundNone(ids: seq<int>, all: seq<Work>)
    requires forall x :: x in ids ==> Find(all, x).None?
    ensures Found(ids, all) == []
  {
    if ids != [] {
      var init := ids[..|ids| - 1];
      assert forall x :: x in init ==> x in ids;
      FoundNone(init, all);
    }
  }

  /** The filter works slot by slot: the ids of two runs of slots are the
      ids of the first run followed by those of the second. */
  lemma {:induction false} PresentIdsAppend(s: seq<Option<int>>, t: seq<Option<int>>)
    ensures PresentIds(s + t) == PresentIds(s) + PresentIds(t)
  {
    if s == [] {
      assert s + t == t;
    } else {
      var head := if s[0].Some? then [s[0].value] else [];
      assert (s + t)[0] == s[0];
      assert (s + t)[1..] == s[1..] + t;
      PresentIdsAppend(s[1..], t);
      calc {
        PresentIds(s + t);
        head + PresentIds(s[1..] + t);
        head + (PresentIds(s[1..]) + PresentIds(t));
        (head + PresentIds(s[1..])) + PresentIds(t);
      }
    }
  }

  /** One slot keeps its id when it is set and contributes nothing when it is
      null; with PresentIdsAppend this fixes the ids as the set slots in slot
      order, repeats included. */
  lemma PresentIdsOne(o: Option<int>)
    ensures PresentIds([o]) == (if o.Some? then [o.value] else [])
  {
  }

  /** The lookup works id by id: the works found for two runs of ids are
      those of the first run followed by those of the second. */
  lemma {:induction false} FoundAppend(a: seq<int>, b: seq<int>, all: seq<Work>)
    ensures Found(a + b, all) == Found(a, all) + Found(b, all)
    decreases |b|
  {
    if b == [] {
      assert a + b == a;
    } else {
      var init := b[..|b| - 1];
      assert (a + b)[..|a + b| - 1] == a + init;
      var last := b[|b| - 1];
      assert (a + b)[|a + b| - 1] == last;
      FoundAppend(a, init, all);
      var tail := match Find(all, last) case Some(w) => [w] case None => [];
      assert Found(b, all) == Found(init, all) + tail;
      assert Found(a + b, all) == Found(a + init, all) + tail;
    }
  }

  /** One id gives its work when the catalogue has it and nothing otherwise. */
  lemma FoundOne(id: int, all: seq<Work>)
    ensures Found([id], all) == (match Find(all, id) case Some(w) => [w] case None => [])
  {
  }

  /** An id missing from the catalogue is skipped and the works found for the
      ids around it keep their order. */
  lemma FoundSkipsMissing(a: seq<int>, id: int, b: seq<int>, all: seq<Work>)
    requires Find(all, id).None?
    ensures Found(a + [id] + b, all) == Found(a, all) + Found(b, all)
  {
    FoundAppend(a + [id], b, all);
    FoundAppend(a, [id], all);
    FoundOne(id, all);
  }

  method LookupWorks(ids: seq<int>, all: seq<Work>) returns (found: seq<Work>)
    ensures found == Found(ids, all)
  {
    found := [];
    var i := 0;
    while i < |ids|
      invariant 0 <= i <= |ids|
      invariant found == Found(ids[..i], all)
    {
      assert ids[..i + 1][..i] == ids[..i];
      var w := Find(all, ids[i]);
      if w.Some? {
        found := found + [w.value];
      }
      i := i + 1;
    }
    assert ids[..|ids|] == ids;
  }

  /** What getCortesBarbero / getBarbasBarbero return: nothing, without a
      request, when no slot is set; nothing when the catalogue request fails
      (`catalogue` is None); otherwise the works found for the ids. */
  function SlotWorks(slots: Slots, catalogue: Option<seq<Work>>): seq<Work> {
    var ids := PresentIds(slots);
    if ids == [] || catalogue.None? then [] else Found(ids, catalogue.value)
  }

  method GetWorks(slots: Slots, catalogue: Option<seq<Work>>) returns (works: seq<Work>, requested: bool)
    ensures requested <==> exists i :: 0 <= i < 4 && slots[i].Some?
    ensures works == SlotWorks(slots, catalogue)
    ensures forall w :: w in works ==> catalogue.Some? && w in catalogue.value && Some(w.id) in slots
  {
    works := [];
    var ids := PresentIds(slots);
    if |ids| == 0 {
      requested := false;
      assert forall i :: 0 <= i < 4 ==> slots[i] !in slots || slots[i].None?;
      return;
    }
    requested := true;
    assert Some(ids[0]) in slots;
    if catalogue.Some? {
      works := LookupWorks(ids, catalogue.value);
      FoundSound(ids, catalogue.value);
    }
  }

  method GetCortesBarbero(b: Barber, catalogue: Option<seq<Work>>) returns (cortes: seq<Work>, requested: bool)
    ensures requested <==> exists i :: 0 <= i < 4 && b.corteIds[i].Some?
    ensures cortes == SlotWorks(b.corteIds, catalogue)
    ensures forall w :: w in cortes ==> catalogue.Some? && w in catalogue.value && Some(w.id) in b.corteIds
  {
    cortes, requested := GetWorks(b.corteIds, catalogue);
  }

  method GetBarbasBarbero(b: Barber, catalogue: Option<seq<Work>>) returns (barbas: seq<Work>, requested: bool)
    ensures requested <==> exists i :: 0 <= i < 4 && b.barbaIds[i].Some?
    ensures barbas == SlotWorks(b.barbaIds, catalogue)
    ensures forall w :: w in barbas ==> catalogue.Some? && w in catalogue.value && Some(w.id) in b.barbaIds
  {
    barbas, requested := GetWorks(b.barbaIds, catalogue);
  }

  // ---------------------------------------------------------------------
  // Schedule text

  const NoSchedule: string := "Sin horarios definidos"

  /** The availability label, case by case. */
  function ScheduleText(manana: Option<string>, tarde: Option<string>): string {
    if Truthy(manana) && Truthy(tarde) then manana.value + " & " + tarde.value
    else if Truthy(manana) then manana.value
    else if Truthy(tarde) then tarde.value
    else NoSchedule
  }

  /** Array.prototype.join. */
  function Join(parts: seq<string>, sep: string): string {
    if parts == [] then ""
    else if |parts| == 1 then parts[0]
    else parts[0] + sep + Join(parts[1..], sep)
  }

  /** formatHorarios: collect the truthy schedules, morning first, and join
      them with " & ". */
  method FormatHorarios(manana: Option<string>, tarde: Option<string>) returns (r: string)
    ensures r == ScheduleText(manana, tarde)
    ensures Truthy(manana) ==> manana.value <= r
    ensures Truthy(tarde) ==> |tarde.value| <= |r| && r[|r| - |tarde.value|..] == tarde.value
    ensures !Truthy(manana) && !Truthy(tarde) ==> r == NoSchedule
  {
    var horarios: seq<string> := [];
    if Truthy(manana) {
      horarios := horarios + [manana.value];
    }
    if Truthy(tarde) {
      horarios := horarios + [tarde.value];
    }
    if |horarios| > 0 {
      r := Join(horarios, " & ");
      assert |horarios| == 2 ==> Join(horarios[1..], " & ") == horarios[1];
    } else {
      r := NoSchedule;
    }
  }

  // ---------------------------------------------------------------------
  // Random selection

  function Remove<T>(s: seq<T>, i: nat): (r: seq<T>)
    requires i < |s|
    ensures |r| == |s| - 1
    ensures multiset(r) + multiset{s[i]} == multiset(s)
  {
    assert s == s[..i] + [s[i]] + s[i + 1..];
    s[..i] + s[i + 1..]
  }

  /** `k` draws from `copy` without replacement. Math.random is the stream
      `rand`: draw number j picks position rand(j) modulo the length of what is
      left, so every sequence of in-range positions can occur. */
  function Pick<T>(copy: seq<T>, k: nat, rand: nat -> nat, from: nat): seq<T>
    requires k <= |copy|
    decreases k
  {
    if k == 0 then []
    else
      var i := rand(from) % |copy|;
      [copy[i]] + Pick(Remove(copy, i), k - 1, rand, from + 1)
  }

  /** The picks are k elements taken from distinct positions of the input:
      as a multiset they are contained in it. */
  lemma {:induction false} PickDistinct<T>(copy: seq<T>, k: nat, rand: nat -> nat, from: nat)
    requires k <= |copy|
    ensures |Pick(copy, k, rand, from)| == k
    ensures multiset(Pick(copy, k, rand, from)) <= multiset(copy)
    decreases k
  {
    if k > 0 {
      var i := rand(from) % |copy|;
      PickDistinct(Remove(copy, i), k - 1, rand, from + 1);
    }
  }

  /** What seleccionarAleatorios returns. */
  function Selection<T>(s: seq<T>, k: nat, rand: nat -> nat, from: nat): seq<T> {
    if |s| == 0 then []
    else if |s| <= k then s
    else Pick(s, k, rand, from)
  }

  /** How many random numbers seleccionarAleatorios consumes. */
  function Draws<T>(s: seq<T>, k: nat): nat {
    if |s| == 0 || |s| <= k then 0 else k
  }

  /** Bounds of a selection: never more than k elements nor more than the
      input, all from distinct positions of the input. */
  lemma SelectionBounds<T>(s: seq<T>, k: nat, rand: nat -> nat, from: nat)
    ensures |Selection(s, k, rand, from)| == if |s| <= k then |s| else k
    ensures multiset(Selection(s, k, rand, from)) <= multiset(s)
  {
    if |s| > k {
      PickDistinct(s, k, rand, from);
    }
  }

  /** seleccionarAleatorios: an empty input gives [], an input of at most
      `cantidad` elements is returned as it is, otherwise `cantidad` elements
      are drawn from a copy, removing each one as it is drawn. Sequences are
      values, so the input is never modified. */
  method SeleccionarAleatorios<T>(arr: seq<T>, cantidad: nat, rand: nat -> nat, from: nat) returns (r: seq<T>)
    ensures r == Selection(arr, cantidad, rand, from)
    ensures |arr| == 0 ==> r == []
    ensures 0 < |arr| <= cantidad ==> r == arr
  {
    if |arr| == 0 {
      return [];
    }
    if |arr| <= cantidad {
      return arr;
    }
    var copia := arr;
    var seleccionados := [];
    var i := 0;
    while i < cantidad
      invariant 0 <= i <= cantidad
      invariant |copia| == |arr| - i
      invariant seleccionados + Pick(copia, cantidad - i, rand, from + i) == Pick(arr, cantidad, rand, from)
    {
      var indiceAleatorio := rand(from + i) % |copia|;
      var elegido := copia[indiceAleatorio];
      ghost var before := copia;
      copia := Remove(copia, indiceAleatorio);
      ghost var rest := Pick(copia, cantidad - i - 1, rand, from + i + 1);
      assert Pick(before, cantidad - i, rand, from + i) == [elegido] + rest;
      assert seleccionados + ([elegido] + rest) == (seleccionados + [elegido]) + rest;
      seleccionados := seleccionados + [elegido];
      i := i + 1;
    }
    r := seleccionados;
  }

  // ---------------------------------------------------------------------
  // Interleaving

  /** a[0], b[0], a[1], b[1], ... and then the rest of the longer list. */
  function Interleave<T>(a: seq<T>, b: seq<T>): seq<T> {
    if a == [] then b
    else if b == [] then a
    else [a[0], b[0]] + Interleave(a[1..], b[1..])
  }

  function Min(x: int, y: int): int { if x <= y then x else y }

  /** The interleaving is as long as both lists together. */
  lemma {:induction false} InterleaveLength<T>(a: seq<T>, b: seq<T>)
    ensures |Interleave(a, b)| == |a| + |b|
  {
    if a != [] && b != [] {
      InterleaveLength(a[1..], b[1..]);
    }
  }

  /** A non-empty list is its head followed by its tail, as a multiset. */
  lemma MultisetHeadTail<T>(s: seq<T>)
    requires s != []
    ensures multiset(s) == multiset{s[0]} + multiset(s[1..])
  {
    assert s == [s[0]] + s[1..];
  }

  /** The interleaving holds the elements of both lists, each as often as
      in the lists. */
  lemma {:induction false} InterleaveMultiset<T>(a: seq<T>, b: seq<T>)
    ensures multiset(Interleave(a, b)) == multiset(a) + multiset(b)
  {
    if a != [] && b != [] {
      InterleaveMultiset(a[1..], b[1..]);
      MultisetHeadTail(a);
      MultisetHeadTail(b);
      assert Interleave(a, b) == [a[0], b[0]] + Interleave(a[1..], b[1..]);
      assert multiset([a[0], b[0]]) == multiset{a[0]} + multiset{b[0]};
    }
  }

  lemma InterleaveContents<T>(a: seq<T>, b: seq<T>)
    ensures |Interleave(a, b)| == |a| + |b|
    ensures multiset(Interleave(a, b)) == multiset(a) + multiset(b)
  {
    InterleaveLength(a, b);
    InterleaveMultiset(a, b);
  }

  /** While both lists last, the interleaving alternates a[i], b[i]. */
  lemma {:induction false} InterleaveAlternates<T>(a: seq<T>, b: seq<T>, i: nat)
    requires i < |a| && i < |b|
    ensures 2 * i + 1 < |Interleave(a, b)|
    ensures Interleave(a, b)[2 * i] == a[i] && Interleave(a, b)[2 * i + 1] == b[i]
  {
    InterleaveLength(a, b);
    if i > 0 {
      var a1, b1 := a[1..], b[1..];
      InterleaveAlternates(a1, b1, i - 1);
      var r := Interleave(a1, b1);
      assert Interleave(a, b) == [a[0], b[0]] + r;
      assert Interleave(a, b)[2 * i] == r[2 * (i - 1)];
      assert Interleave(a, b)[2 * i + 1] == r[2 * (i - 1) + 1];
    }
  }

  /** After the alternating part comes what is left of the longer list, in
      its order. */
  lemma {:induction false} InterleaveTail<T>(a: seq<T>, b: seq<T>)
    ensures |Interleave(a, b)| == |a| + |b|
    ensures Interleave(a, b)[2 * Min(|a|, |b|)..] == a[Min(|a|, |b|)..] + b[Min(|a|, |b|)..]
  {
    InterleaveLength(a, b);
    if a != [] && b != [] {
      var a1, b1 := a[1..], b[1..];
      InterleaveTail(a1, b1);
      var r := Interleave(a1, b1);
      var m := Min(|a|, |b|);
      assert m - 1 == Min(|a1|, |b1|);
      assert Interleave(a, b) == [a[0], b[0]] + r;
      assert Interleave(a, b)[2 * m..] == r[2 * (m - 1)..];
      assert a[m..] == a1[m - 1..];
      assert b[m..] == b1[m - 1..];
    }
  }

  /** Appending one element to each of two lists of the same length appends
      both, in order, to the interleaving. */
  lemma {:induction false} InterleaveSnocBoth<T>(a: seq<T>, b: seq<T>, x: T, y: T)
    requires |a| == |b|
    ensures Interleave(a + [x], b + [y]) == Interleave(a, b) + [x, y]
    decreases |a|
  {
    if a != [] {
      assert (a + [x])[1..] == a[1..] + [x];
      assert (b + [y])[1..] == b[1..] + [y];
      InterleaveSnocBoth(a[1..], b[1..], x, y);
    }
  }

  /** Appending to the first list once the second is used up appends to the
      interleaving. */
  lemma {:induction false} InterleaveSnocLeft<T>(a: seq<T>, b: seq<T>, x: T)
    requires |a| >= |b|
    ensures Interleave(a + [x], b) == Interleave(a, b) + [x]
    decreases |b|
  {
    if b != [] {
      assert (a + [x])[1..] == a[1..] + [x];
      InterleaveSnocLeft(a[1..], b[1..], x);
    }
  }

  /** The same for the second list once the first is used up. */
  lemma {:induction false} InterleaveSnocRight<T>(a: seq<T>, b: seq<T>, y: T)
    requires |b| >= |a|
    ensures Interleave(a, b + [y]) == Interleave(a, b) + [y]
    decreases |a|
  {
    if a != [] {
      assert (b + [y])[1..] == b[1..] + [y];
      InterleaveSnocRight(a[1..], b[1..], y);
    }
  }

  /** One round of intercalarArrays: the prefixes grow by the elements at
      position i that exist, and the interleaving by the same elements. */
  lemma InterleavePrefixStep<T>(lista1: seq<T>, lista2: seq<T>, i: nat)
    ensures Interleave(lista1[..Min(i + 1, |lista1|)], lista2[..Min(i + 1, |lista2|)])
            == Interleave(lista1[..Min(i, |lista1|)], lista2[..Min(i, |lista2|)])
               + (if i < |lista1| then [lista1[i]] else [])
               + (if i < |lista2| then [lista2[i]] else [])
  {
    var a := lista1[..Min(i, |lista1|)];
    var b := lista2[..Min(i, |lista2|)];
    if i < |lista1| && i < |lista2| {
      InterleaveSnocBoth(a, b, lista1[i], lista2[i]);
      assert lista1[..i + 1] == a + [lista1[i]] && lista2[..i + 1] == b + [lista2[i]];
    } else if i < |lista1| {
      InterleaveSnocLeft(a, b, lista1[i]);
      assert lista1[..i + 1] == a + [lista1[i]];
    } else if i < |lista2| {
      InterleaveSnocRight(a, b, lista2[i]);
      assert lista2[..i + 1] == b + [lista2[i]];
    }
  }

  /** intercalarArrays. */
  method IntercalarArrays<T>(lista1: seq<T>, lista2: seq<T>) returns (resultado: seq<T>)
    ensures resultado == Interleave(lista1, lista2)
    ensures |resultado| == |lista1| + |lista2|
  {
    resultado := [];
    var maxLength := if |lista1| >= |lista2| then |lista1| else |lista2|;
    for i := 0 to maxLength
      invariant resultado == Interleave(lista1[..Min(i, |lista1|)], lista2[..Min(i, |lista2|)])
    {
      InterleavePrefixStep(lista1, lista2, i);
      if i < |lista1| {
        resultado := resultado + [lista1[i]];
      }
      if i < |lista2| {
        resultado := resultado + [lista2[i]];
      }
    }
    assert lista1[..Min(maxLength, |lista1|)] == lista1;
    assert lista2[..Min(maxLength, |lista2|)] == lista2;
    InterleaveLength(lista1, lista2);
  }

  // ---------------------------------------------------------------------
  // The card of one barber

  /** The label next to "reserva ahora". */
  function TipoLabel(tipo: string): string {
    if tipo == "Peluquero" then "Peluquero"
    else if tipo == "Barbero" then "Barbero"
    else "Barbero y Peluquero"
  }

  /** The label names the tipo itself for 'Peluquero' and 'Barbero' and is
      "Barbero y Peluquero" for every other tipo, 'Ambos' included. */
  lemma TipoLabelCases(tipo: string)
    ensures TipoLabel(tipo) in {"Peluquero", "Barbero", "Barbero y Peluquero"}
    ensures TipoLabel(tipo) == tipo <==> tipo in {"Peluquero", "Barbero", "Barbero y Peluquero"}
    ensures tipo == "Ambos" ==> TipoLabel(tipo) == "Barbero y Peluquero"
  {
  }

  /** JavaScript's `%`, which truncates toward zero. */
  function JsRem(x: int, m: int): (r: int)
    requires m > 0
    ensures -m < r < m
    ensures x >= 0 ==> r == x % m
  {
    if x >= 0 then x % m else -((-x) % m)
  }

  /** imp-barb-cont (dark, photo on the right) for odd ids, par-barb-cont
      (light, photo on the left) for even ids. */
  datatype Layout = Imp | Par

  function LayoutFor(id: int): Layout {
    if JsRem(id, 2) != 0 then Imp else Par
  }

  /** Odd ids, negative ones included (their remainder is -1), take the
      dark layout; the layouts alternate from one id to the next. */
  lemma LayoutAlternates(id: int)
    ensures LayoutFor(id) == Imp <==> id % 2 == 1
    ensures LayoutFor(id) != LayoutFor(id + 1)
    ensures LayoutFor(id) == LayoutFor(id + 2)
  {
    if id < -2 {
      assert (-id) % 2 == (-(id + 2)) % 2;
    }
  }

  /** The gallery of a card. */
  datatype Gallery =
    | NoGallery                          // any other tipo
    | CutsAndBeards(items: seq<Work>)    // 'Ambos': "Cortes y Barbas Realizadas"
    | CutsDone(items: seq<Work>)         // 'Peluquero': "Cortes Hechos"
    | BeardsDone(items: seq<Work>)       // 'Barbero': "Barbas Realizadas"

  /** The gallery, with the position of the random stream after it. */
  function GalleryFor(tipo: string, cortes: seq<Work>, barbas: seq<Work>, rand: nat -> nat, from: nat): (Gallery, nat) {
    if tipo == "Ambos" then
      var c := Selection(cortes, 2, rand, from);
      var b := Selection(barbas, 2, rand, from + Draws(cortes, 2));
      (CutsAndBeards(Interleave(c, b)), from + Draws(cortes, 2) + Draws(barbas, 2))
    else if tipo == "Peluquero" then (CutsDone(cortes), from)
    else if tipo == "Barbero" then (BeardsDone(barbas), from)
    else (NoGallery, from)
  }

  /** An 'Ambos' gallery shows at most two cuts and at most two beards, at
      most four works, each taken from the barber's own works. */
  lemma AmbosGallery(cortes: seq<Work>, barbas: seq<Work>, rand: nat -> nat, from: nat)
    ensures GalleryFor("Ambos", cortes, barbas, rand, from).0.CutsAndBeards?
    ensures |GalleryFor("Ambos", cortes, barbas, rand, from).0.items| <= 4
    ensures multiset(GalleryFor("Ambos", cortes, barbas, rand, from).0.items) <= multiset(cortes) + multiset(barbas)
  {
    var c := Selection(cortes, 2, rand, from);
    var b := Selection(barbas, 2, rand, from + Draws(cortes, 2));
    SelectionBounds(cortes, 2, rand, from);
    SelectionBounds(barbas, 2, rand, from + Draws(cortes, 2));
    InterleaveContents(c, b);
  }

  /** The 'Ambos' works: two random cuts and two random beards, interleaved. */
  method TrabajosAmbos(cortes: seq<Work>, barbas: seq<Work>, rand: nat -> nat, from: nat)
    returns (items: seq<Work>, next: nat)
    ensures items == Interleave(Selection(cortes, 2, rand, from), Selection(barbas, 2, rand, from + Draws(cortes, 2)))
    ensures next == from + Draws(cortes, 2) + Draws(barbas, 2)
  {
    var cortesSeleccionados := SeleccionarAleatorios(cortes, 2, rand, from);
    next := from + Draws(cortes, 2);
    var barbasSeleccionadas := SeleccionarAleatorios(barbas, 2, rand, next);
    next := next + Draws(barbas, 2);
    items := IntercalarArrays(cortesSeleccionados, barbasSeleccionadas);
  }

  /** The works part of createImparbBarberoHTML / createParBarberoHTML. */
  method Trabajos(tipo: string, cortes: seq<Work>, barbas: seq<Work>, rand: nat -> nat, from: nat)
    returns (g: Gallery, next: nat)
    ensures (g, next) == GalleryFor(tipo, cortes, barbas, rand, from)
    ensures tipo == "Ambos" ==> g.CutsAndBeards? && |g.items| <= 4
    ensures tipo == "Peluquero" ==> g == CutsDone(cortes)
    ensures tipo == "Barbero" ==> g == BeardsDone(barbas)
  {
    next := from;
    if tipo == "Ambos" {
      var todosTrabajos;
      todosTrabajos, next := TrabajosAmbos(cortes, barbas, rand, from);
      g := CutsAndBeards(todosTrabajos);
      AmbosGallery(cortes, barbas, rand, from);
    } else if tipo == "Peluquero" {
      g := CutsDone(cortes);
    } else if tipo == "Barbero" {
      g := BeardsDone(barbas);
    } else {
      g := NoGallery;
    }
  }

  /** What a card shows. */
  datatype Card = Card(
    layout: Layout,
    tipoLabel: string,
    nombre: string,
    descripcion: string,
    gallery: Gallery,
    horarios: string,
    imagen: string)

  const ImpDefaultImage: string := "../Cortes/C-Imgs/Barberos/Balbero.png"
  const ParDefaultImage: string := "../Cortes/C-Imgs/Barberos/Black Barber.png"
  const NoDescription: string := "Sin descripción"

  /** The parts of a card that do not depend on the random draws. */
  ghost predicate CardOf(b: Barber, c: Card, cortes: seq<Work>, barbas: seq<Work>) {
    && c.layout == LayoutFor(b.id)
    && c.tipoLabel == TipoLabel(b.tipo)
    && c.nombre == b.nombre
    && c.descripcion == (if Truthy(b.descripcion) then b.descripcion.value else NoDescription)
    && c.horarios == ScheduleText(b.horarioManana, b.horarioTarde)
    && c.imagen == (if Truthy(b.imagen) then b.imagen.value
                    else if c.layout == Imp then ImpDefaultImage else ParDefaultImage)
    && (b.tipo == "Ambos" ==> c.gallery.CutsAndBeards? && |c.gallery.items| <= 4
                              && multiset(c.gallery.items) <= multiset(cortes) + multiset(barbas))
    && (b.tipo == "Peluquero" ==> c.gallery == CutsDone(cortes))
    && (b.tipo == "Barbero" ==> c.gallery == BeardsDone(barbas))
    && (b.tipo !in {"Ambos", "Peluquero", "Barbero"} ==> c.gallery == NoGallery)
  }

  /** The card of one barber, odd or even. */
  method RenderCard(b: Barber, cortes: seq<Work>, barbas: seq<Work>, rand: nat -> nat, from: nat)
    returns (card: Card, next: nat)
    ensures CardOf(b, card, cortes, barbas)
    ensures card.gallery == GalleryFor(b.tipo, cortes, barbas, rand, from).0
  {
    var esImpar := JsRem(b.id, 2) != 0;
    var horarios := FormatHorarios(b.horarioManana, b.horarioTarde);
    var gallery;
    gallery, next := Trabajos(b.tipo, cortes, barbas, rand, from);
    if b.tipo == "Ambos" {
      AmbosGallery(cortes, barbas, rand, from);
    }
    var descripcion := if Truthy(b.descripcion) then b.descripcion.value else NoDescription;
    var imagen := if Truthy(b.imagen) then b.imagen.value
                  else if esImpar then ImpDefaultImage else ParDefaultImage;
    card := Card(if esImpar then Imp else Par, TipoLabel(b.tipo), b.nombre, descripcion, gallery, horarios, imagen);
  }

  /** The body of the loop of loadBarberos: the barber's works, then the
      card. The card has every property `p` that holds of all cards rendered
      for the barber with those works; `p` is a proof device that lets the
      loop reason about the cards without unfolding Rendered. Its only
      caller passes `RenderedWith(cortesCatalogue, barbasCatalogue)`, so the
      card is then exactly a rendered one. */
  method RenderBarber(b: Barber, cortesCatalogue: Option<seq<Work>>, barbasCatalogue: Option<seq<Work>>,
                      rand: nat -> nat, from: nat, ghost p: (Barber, Card) -> bool)
    returns (card: Card, next: nat)
    requires forall x, c {:trigger Rendered(cortesCatalogue, barbasCatalogue, x, c)} ::
               Rendered(cortesCatalogue, barbasCatalogue, x, c) ==> p(x, c)
    ensures p(b, card)
  {
    var cortes, _ := GetCortesBarbero(b, cortesCatalogue);
    var barbas, _ := GetBarbasBarbero(b, barbasCatalogue);
    card, next := RenderCard(b, cortes, barbas, rand, from);
    assert Rendered(cortesCatalogue, barbasCatalogue, b, card);
  }

  /** The content of #barberos-container. */
  datatype Page = LoadError | NoBarbers | Cards(cards: seq<Card>)

  /** `p` holds of the elements at each position of two lists of the same
      length; stated from the last position, as a loop that appends builds
      them. */
  ghost predicate EachPair<A, B>(p: (A, B) -> bool, xs: seq<A>, ys: seq<B>)
    decreases |xs|
  {
    && |ys| == |xs|
    && (xs != [] ==>
          var k := |xs| - 1;
          EachPair(p, xs[..k], ys[..k]) && p(xs[k], ys[k]))
  }

  lemma {:induction false} EachPairAt<A, B>(p: (A, B) -> bool, xs: seq<A>, ys: seq<B>, j: nat)
    requires EachPair(p, xs, ys) && j < |xs|
    ensures |ys| == |xs| && p(xs[j], ys[j])
    decreases |xs|
  {
    var k := |xs| - 1;
    if j < k {
      EachPairAt(p, xs[..k], ys[..k], j);
      assert xs[..k][j] == xs[j] && ys[..k][j] == ys[j];
    }
  }

  lemma EachPairSnoc<A, B>(p: (A, B) -> bool, xs: seq<A>, ys: seq<B>, x: A, y: B)
    requires EachPair(p, xs, ys) && p(x, y)
    ensures EachPair(p, xs + [x], ys + [y])
  {
    assert (xs + [x])[..|xs|] == xs && (ys + [y])[..|xs|] == ys;
  }

  /** The card of barber `b`, rendered with the barber's works. */
  ghost predicate Rendered(cortesCatalogue: Option<seq<Work>>, barbasCatalogue: Option<seq<Work>>, b: Barber, card: Card) {
    CardOf(b, card, SlotWorks(b.corteIds, cortesCatalogue), SlotWorks(b.barbaIds, barbasCatalogue))
  }

  /** Rendered, for fixed catalogues, as a predicate on (barber, card). */
  ghost function RenderedWith(cortesCatalogue: Option<seq<Work>>, barbasCatalogue: Option<seq<Work>>): (Barber, Card) -> bool {
    (b, card) => Rendered(cortesCatalogue, barbasCatalogue, b, card)
  }

  /** One card per barber, in order, each with that barber's works. */
  ghost predicate CardsFor(bs: seq<Barber>, cards: seq<Card>,
                           cortesCatalogue: Option<seq<Work>>, barbasCatalogue: Option<seq<Work>>)
  {
    EachPair(RenderedWith(cortesCatalogue, barbasCatalogue), bs, cards)
  }

  /** Every card of a rendered list is the card of the barber at its
      position. */
  lemma CardsForEach(bs: seq<Barber>, cards: seq<Card>,
                     cortesCatalogue: Option<seq<Work>>, barbasCatalogue: Option<seq<Work>>, j: nat)
    requires CardsFor(bs, cards, cortesCatalogue, barbasCatalogue) && j < |bs|
    ensures |cards| == |bs|
    ensures CardOf(bs[j], cards[j], SlotWorks(bs[j].corteIds, cortesCatalogue), SlotWorks(bs[j].barbaIds, barbasCatalogue))
  {
    EachPairAt(RenderedWith(cortesCatalogue, barbasCatalogue), bs, cards, j);
  }

  /** The loop of loadBarberos: one card per barber, drawing from the random
      stream in turn. Each card satisfies any `p` that every rendered card
      satisfies; LoadBarberos passes `RenderedWith(cortesCatalogue,
      barbasCatalogue)` itself, which gives CardsFor. */
  method RenderAll(all: seq<Barber>, cortesCatalogue: Option<seq<Work>>, barbasCatalogue: Option<seq<Work>>,
                   rand: nat -> nat, ghost p: (Barber, Card) -> bool)
    returns (cards: seq<Card>)
    requires forall x, c {:trigger Rendered(cortesCatalogue, barbasCatalogue, x, c)} ::
               Rendered(cortesCatalogue, barbasCatalogue, x, c) ==> p(x, c)
    ensures EachPair(p, all, cards)
  {
    cards := [];
    var next := 0;
    for i := 0 to |all|
      invariant EachPair(p, all[..i], cards)
    {
      var card;
      card, next := RenderBarber(all[i], cortesCatalogue, barbasCatalogue, rand, next, p);
      EachPairSnoc(p, all[..i], cards, all[i], card);
      assert all[..i] + [all[i]] == all[..i + 1];
      cards := cards + [card];
    }
    assert all[..|all|] == all;
  }

  /** loadBarberos, with the answers of /api/barberos (None when the request
      fails) and of the two catalogues as parameters. */
  method LoadBarberos(barberos: Option<seq<Barber>>, cortesCatalogue: Option<seq<Work>>,
                      barbasCatalogue: Option<seq<Work>>, rand: nat -> nat)
    returns (page: Page)
    ensures barberos.None? <==> page == LoadError
    ensures barberos == Some([]) <==> page == NoBarbers
    ensures page.Cards? ==> CardsFor(barberos.value, page.cards, cortesCatalogue, barbasCatalogue)
  {
    if barberos.None? {
      return LoadError;
    }
    if |barberos.value| == 0 {
      return NoBarbers;
    }
    var cards := RenderAll(barberos.value, cortesCatalogue, barbasCatalogue, rand, RenderedWith(cortesCatalogue, barbasCatalogue));
    page := Cards(cards);
  }
}
