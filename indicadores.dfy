/**
 * The indicator report `Obtener_indicadores` (gestionar_obras.py:150-183):
 * read-only queries over the database, gathered into one record. The two
 * grouped queries are inner joins of Obras with a lookup table grouped by
 * the referenced row; their groups are listed here in the order of that
 * table's ids.
 */
module Indicadores {
  import opened Wrappers
  import opened Tablas

  /** The column a grouped query joins on: `Obra.Etapa` or `Obra.Tipo_obra`. */
  datatype Agrupacion = SegunEtapa | SegunTipo

  function Clave(o: RegistroObra, a: Agrupacion): Option<nat> {
    match a
    case SegunEtapa => o.etapa
    case SegunTipo => o.tipoObra
  }

  /** The record references a row whose id lies in `lo..hi`. */
  predicate EnRango(o: RegistroObra, a: Agrupacion, lo: nat, hi: nat) {
    Clave(o, a).Some? && lo <= Clave(o, a).value <= hi
  }

  /** The records, in table order, that reference a row with id in `lo..hi`. */
  function Entre(s: seq<RegistroObra>, a: Agrupacion, lo: nat, hi: nat): (r: seq<RegistroObra>)
    ensures |r| <= |s|
    ensures forall o :: o in r <==> o in s && EnRango(o, a, lo, hi)
  {
    if s == [] then []
    else (if EnRango(s[0], a, lo, hi) then [s[0]] else []) + Entre(s[1..], a, lo, hi)
  }

  /** The records joined with the row of id `id`: one group of a grouped query. */
  function Grupo(s: seq<RegistroObra>, a: Agrupacion, id: nat): seq<RegistroObra> {
    Entre(s, a, id, id)
  }

  /** The records whose column is not NULL, and those whose column is NULL. */
  function ConClave(s: seq<RegistroObra>, a: Agrupacion): (r: seq<RegistroObra>)
    ensures forall o :: o in r <==> o in s && Clave(o, a).Some?
  {
    if s == [] then []
    else (if Clave(s[0], a).Some? then [s[0]] else []) + ConClave(s[1..], a)
  }

  function SinClave(s: seq<RegistroObra>, a: Agrupacion): (r: seq<RegistroObra>)
    ensures forall o :: o in r <==> o in s && Clave(o, a).None?
  {
    if s == [] then []
    else (if Clave(s[0], a).None? then [s[0]] else []) + SinClave(s[1..], a)
  }

  /**
   * What SQL SUM adds for one Monto_contrato cell: NULL adds nothing, a
   * number adds itself, and text that is not a number adds 0.
   */
  function Importe(m: Option<Monto>): real {
    match m
    case None => 0.0
    case Some(Numero(v)) => v
    case Some(Crudo(_)) => 0.0
  }

  /** The sum of the amounts of `s`, counting NULLs as nothing. */
  function Monto(s: seq<RegistroObra>): real {
    if s == [] then 0.0 else Importe(s[0].montoContrato) + Monto(s[1..])
  }

  /** Some record of `s` has an amount. */
  predicate ConMontos(s: seq<RegistroObra>) {
    exists i :: 0 <= i < |s| && s[i].montoContrato.Some?
  }

  /** SQL `SUM(Monto_contrato)`: NULL when no record of `s` has an amount, else their sum. */
  function SumaSql(s: seq<RegistroObra>): (r: Option<real>)
    ensures r.None? <==> forall i :: 0 <= i < |s| ==> s[i].montoContrato.None?
    ensures r.GetOr(0.0) == Monto(s)
  {
    SinMontosCero(s);
    if ConMontos(s) then Some(Monto(s)) else None
  }

  lemma {:induction false} SinMontosCero(s: seq<RegistroObra>)
    ensures !ConMontos(s) ==> Monto(s) == 0.0
  {
    if s != [] && !ConMontos(s) {
      assert !ConMontos(s[1..]) by {
        forall i | 0 <= i < |s[1..]| ensures s[1..][i].montoContrato.None? {
          assert s[1..][i] == s[i + 1];
        }
      }
      SinMontosCero(s[1..]);
    }
  }

  /** The amounts of two runs of records add up. */
  lemma {:induction false} MontoConcat(s: seq<RegistroObra>, t: seq<RegistroObra>)
    ensures Monto(s + t) == Monto(s) + Monto(t)
  {
    if s == [] {
      assert s + t == t;
    } else {
      assert (s + t)[0] == s[0] && (s + t)[1..] == s[1..] + t;
      MontoConcat(s[1..], t);
    }
  }

  /** No id lies in an empty range. */
  lemma {:induction false} EntreVacio(s: seq<RegistroObra>, a: Agrupacion, lo: nat, hi: nat)
    requires hi < lo
    ensures Entre(s, a, lo, hi) == []
  {
    if s != [] {
      EntreVacio(s[1..], a, lo, hi);
    }
  }

  /**
   * Widening the range by the id `n + 1` adds exactly the group of that id,
   * both to the count and to the amount.
   */
  lemma {:induction false} EntreSepara(s: seq<RegistroObra>, a: Agrupacion, lo: nat, n: nat)
    requires lo <= n + 1
    ensures |Entre(s, a, lo, n + 1)| == |Entre(s, a, lo, n)| + |Grupo(s, a, n + 1)|
    ensures Monto(Entre(s, a, lo, n + 1)) == Monto(Entre(s, a, lo, n)) + Monto(Grupo(s, a, n + 1))
  {
    if s != [] {
      EntreSepara(s[1..], a, lo, n);
      var x := s[0];
      var ancho := (if EnRango(x, a, lo, n + 1) then [x] else []);
      var angosto := (if EnRango(x, a, lo, n) then [x] else []);
      var uno := (if EnRango(x, a, n + 1, n + 1) then [x] else []);
      MontoConcat(ancho, Entre(s[1..], a, lo, n + 1));
      MontoConcat(angosto, Entre(s[1..], a, lo, n));
      MontoConcat(uno, Grupo(s[1..], a, n + 1));
    }
  }

  /** When every reference is in `1..n`, the records in that range are those with a reference. */
  lemma {:induction false} EntreTodas(s: seq<RegistroObra>, a: Agrupacion, n: nat)
    requires forall i :: 0 <= i < |s| ==> RefOk(Clave(s[i], a), n)
    ensures Entre(s, a, 1, n) == ConClave(s, a)
  {
    if s != [] {
      assert RefOk(Clave(s[0], a), n);
      EntreTodas(s[1..], a, n);
    }
  }

  /** The amount of all records is that of those with a reference plus that of those without. */
  lemma {:induction false} MontoPartido(s: seq<RegistroObra>, a: Agrupacion)
    ensures Monto(s) == Monto(ConClave(s, a)) + Monto(SinClave(s, a))
  {
    if s != [] {
      MontoPartido(s[1..], a);
      var x := s[0];
      MontoConcat(if Clave(x, a).Some? then [x] else [], ConClave(s[1..], a));
      MontoConcat(if Clave(x, a).None? then [x] else [], SinClave(s[1..], a));
    }
  }

  /** A row of `obras_por_etapa`: Desc_etapa, the Etapa id and `cantidad_obras`. */
  datatype FilaEtapa = FilaEtapa(id: nat, desc: string, cantidad: nat)

  /** A row of `obras_y_monto_por_tipo`: Desc_tipo, the Tipo_obra id, `cantidad_obras` and `monto_por_tipo`. */
  datatype FilaTipo = FilaTipo(id: nat, desc: string, cantidad: nat, monto: Option<real>)

  /**
   * Records joined with the Etapa rows `t` and grouped by stage: one row per
   * stage that some record references, none for an unused stage.
   */
  function ObrasPorEtapa(t: seq<Entrada>, s: seq<RegistroObra>): (r: seq<FilaEtapa>)
    ensures forall x :: x in r ==> Entrada(x.id, x.desc) in t && x.cantidad == |Grupo(s, SegunEtapa, x.id)| && x.cantidad >= 1
    ensures forall e :: e in t && |Grupo(s, SegunEtapa, e.id)| > 0 ==>
      FilaEtapa(e.id, e.texto, |Grupo(s, SegunEtapa, e.id)|) in r
  {
    if t == [] then []
    else
      var e := t[|t| - 1];
      var g := Grupo(s, SegunEtapa, e.id);
      ObrasPorEtapa(t[..|t| - 1], s) + (if |g| == 0 then [] else [FilaEtapa(e.id, e.texto, |g|)])
  }

  /**
   * Records joined with the Tipo_obra rows `t` and grouped by type: one row
   * per type that some record references, with the group's count and SQL sum.
   */
  function ObrasPorTipo(t: seq<Entrada>, s: seq<RegistroObra>): (r: seq<FilaTipo>)
    ensures forall x :: x in r ==>
      && Entrada(x.id, x.desc) in t && x.cantidad == |Grupo(s, SegunTipo, x.id)| && x.cantidad >= 1
      && x.monto == SumaSql(Grupo(s, SegunTipo, x.id))
    ensures forall e :: e in t && |Grupo(s, SegunTipo, e.id)| > 0 ==>
      FilaTipo(e.id, e.texto, |Grupo(s, SegunTipo, e.id)|, SumaSql(Grupo(s, SegunTipo, e.id))) in r
  {
    if t == [] then []
    else
      var e := t[|t| - 1];
      var g := Grupo(s, SegunTipo, e.id);
      ObrasPorTipo(t[..|t| - 1], s) + (if |g| == 0 then [] else [FilaTipo(e.id, e.texto, |g|, SumaSql(g))])
  }

  /** The counts of the stage rows added up. */
  function TotalEtapas(r: seq<FilaEtapa>): nat {
    if r == [] then 0 else TotalEtapas(r[..|r| - 1]) + r[|r| - 1].cantidad
  }

  /** The counts of the type rows added up. */
  function TotalTipos(r: seq<FilaTipo>): nat {
    if r == [] then 0 else TotalTipos(r[..|r| - 1]) + r[|r| - 1].cantidad
  }

  /** The per-type sums added up, a NULL sum as 0. */
  function MontoTipos(r: seq<FilaTipo>): real {
    if r == [] then 0.0 else MontoTipos(r[..|r| - 1]) + r[|r| - 1].monto.GetOr(0.0)
  }

  /** Lookup rows whose ids are their row numbers, as in every valid table. */
  predicate Numerada(t: seq<Entrada>) {
    forall i :: 0 <= i < |t| ==> t[i].id == i + 1
  }

  /** The stage counts add up to the number of records referencing a stage among the first `|t|`. */
  lemma {:induction false} TotalEtapasEntre(t: seq<Entrada>, s: seq<RegistroObra>)
    requires Numerada(t)
    ensures TotalEtapas(ObrasPorEtapa(t, s)) == |Entre(s, SegunEtapa, 1, |t|)|
  {
    if t == [] {
      EntreVacio(s, SegunEtapa, 1, 0);
    } else {
      var u := t[..|t| - 1];
      var e := t[|t| - 1];
      var g := Grupo(s, SegunEtapa, e.id);
      var r := ObrasPorEtapa(u, s);
      TotalEtapasEntre(u, s);
      EntreSepara(s, SegunEtapa, 1, |u|);
      if |g| > 0 {
        var x := FilaEtapa(e.id, e.texto, |g|);
        assert (r + [x])[..|r + [x]| - 1] == r;
      } else {
        assert r + [] == r;
      }
    }
  }

  /**
   * The type counts add up to the number of records referencing a type among
   * the first `|t|`, and the type sums to their amount.
   */
  lemma {:induction false} TotalTiposEntre(t: seq<Entrada>, s: seq<RegistroObra>)
    requires Numerada(t)
    ensures TotalTipos(ObrasPorTipo(t, s)) == |Entre(s, SegunTipo, 1, |t|)|
    ensures MontoTipos(ObrasPorTipo(t, s)) == Monto(Entre(s, SegunTipo, 1, |t|))
  {
    if t == [] {
      EntreVacio(s, SegunTipo, 1, 0);
    } else {
      var u := t[..|t| - 1];
      var e := t[|t| - 1];
      var g := Grupo(s, SegunTipo, e.id);
      var r := ObrasPorTipo(u, s);
      TotalTiposEntre(u, s);
      EntreSepara(s, SegunTipo, 1, |u|);
      if |g| > 0 {
        var x := FilaTipo(e.id, e.texto, |g|, SumaSql(g));
        assert ObrasPorTipo(t, s) == r + [x];
        assert (r + [x])[..|r + [x]| - 1] == r;
        assert MontoTipos(r + [x]) == MontoTipos(r) + Monto(g);
      } else {
        assert ObrasPorTipo(t, s) == r + [] == r;
        assert g == [];
      }
    }
  }

  /** `Obra.Etapa == 3 & Obra.Plazo <= 24`: a NULL term makes the condition false. */
  predicate Finalizada24(o: RegistroObra) {
    o.etapa == Some(3) && o.plazo.Some? && o.plazo.value <= 24.0
  }

  /** The `count()` of that query. */
  function Finalizadas24(s: seq<RegistroObra>): nat {
    if s == [] then 0 else Finalizadas24(s[..|s| - 1]) + (if Finalizada24(s[|s| - 1]) then 1 else 0)
  }

  /** The positions of the records the query matches. */
  function Indices24(s: seq<RegistroObra>): set<nat> {
    set i: nat | i < |s| && Finalizada24(s[i])
  }

  /** The count is the number of records with stage id 3 and a term of at most 24 months. */
  lemma {:induction false} Finalizadas24Cuenta(s: seq<RegistroObra>)
    ensures Finalizadas24(s) == |Indices24(s)|
  {
    if s == [] {
      assert Indices24(s) == {};
    } else {
      var u := s[..|s| - 1];
      Finalizadas24Cuenta(u);
      var nuevo: set<nat> := if Finalizada24(s[|s| - 1]) then {|u|} else {};
      assert Indices24(s) == Indices24(u) + nuevo by {
        forall i: nat | i < |u| ensures s[i] == u[i] { }
      }
      assert |u| !in Indices24(u);
    }
  }

  /** `Barrio.select().where(Barrio.Comuna.in_([1, 2, 3]))`, in table order. */
  function Barrios123(b: seq<Barrio>): (r: seq<Barrio>)
    ensures |r| <= |b|
    ensures forall x :: x in r <==> x in b && 1 <= x.comuna <= 3
  {
    if b == [] then []
    else (if 1 <= b[0].comuna <= 3 then [b[0]] else []) + Barrios123(b[1..])
  }

  /** `SELECT SUM(Monto_contrato) ... .scalar() or 0`: the sum, or 0 with no amounts. */
  function MontoTotal(s: seq<RegistroObra>): (r: real)
    ensures r == Monto(s)
    ensures s == [] ==> r == 0.0
  {
    SumaSql(s).GetOr(0.0)
  }

  /** The dictionary `Obtener_indicadores` returns. */
  datatype Indicadores = Indicadores(
    areasResponsables: seq<Entrada>,
    tiposObra: seq<Entrada>,
    obrasPorEtapa: seq<FilaEtapa>,
    obrasYMontoPorTipo: seq<FilaTipo>,
    barriosComunas123: seq<Barrio>,
    obrasFinalizadasEn24Meses: nat,
    montoTotalInversion: real)

  function ObtenerIndicadores(d: Base): Indicadores {
    Indicadores(
      d.Tabla(AreaResponsable),
      d.Tabla(TipoObra),
      ObrasPorEtapa(d.Tabla(Etapa), d.obras),
      ObrasPorTipo(d.Tabla(TipoObra), d.obras),
      Barrios123(d.barrios),
      Finalizadas24(d.obras),
      MontoTotal(d.obras))
  }

  /**
   * On a valid database the report adds up: the stage counts cover every
   * record with a stage, the type counts every record with a type, the
   * type sums plus the amount of untyped records make the total, the 24-month
   * count is the number of matching records, and an empty Obras table
   * reports a total of 0.
   */
  lemma IndicadoresSpec(d: Base)
    requires d.Valid()
    ensures var r := ObtenerIndicadores(d);
      && TotalEtapas(r.obrasPorEtapa) == |ConClave(d.obras, SegunEtapa)|
      && TotalTipos(r.obrasYMontoPorTipo) == |ConClave(d.obras, SegunTipo)|
      && MontoTipos(r.obrasYMontoPorTipo) == Monto(ConClave(d.obras, SegunTipo))
      && r.montoTotalInversion == MontoTipos(r.obrasYMontoPorTipo) + Monto(SinClave(d.obras, SegunTipo))
      && r.obrasFinalizadasEn24Meses == |Indices24(d.obras)|
      && (d.obras == [] ==> r.montoTotalInversion == 0.0)
  {
    assert Numerada(d.Tabla(Etapa)) && Numerada(d.Tabla(TipoObra)) by {
      assert CatalogoValido(d.catalogos[Etapa]) && CatalogoValido(d.catalogos[TipoObra]);
    }
    assert forall i :: 0 <= i < |d.obras| ==> d.RefsOk(d.obras[i]);
    TotalEtapasEntre(d.Tabla(Etapa), d.obras);
    EntreTodas(d.obras, SegunEtapa, |d.Tabla(Etapa)|);
    TotalTiposEntre(d.Tabla(TipoObra), d.obras);
    EntreTodas(d.obras, SegunTipo, |d.Tabla(TipoObra)|);
    MontoPartido(d.obras, SegunTipo);
    Finalizadas24Cuenta(d.obras);
  }
}
