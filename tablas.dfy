/**
 * The registry's tables (modelo_orm.py): seven lookup tables of
 * (id, text) rows, the Barrio table that references Comuna, the
 * Empresa_licitadora table, and the Obra table whose columns reference all
 * of them. `Base` is the whole database as a value; `Store` is the one
 * database the program works on, updated in place.
 *
 * SQLite gives an INTEGER PRIMARY KEY the next row number, and nothing is
 * ever deleted, so the row at position i of a table has id i + 1.
 */
module Tablas {
  import opened Wrappers

  /** The lookup tables whose rows are just an id and a text. */
  datatype Catalogo = Etapa | Entorno | TipoObra | AreaResponsable | Comuna | TipoContratacion | Financiamiento

  /** A row of a lookup table (Desc_etapa, Desc_entorno, Desc_tipo, Area, Comuna, ...). */
  datatype Entrada = Entrada(id: nat, texto: string)

  /** A row of Barrios: its name and the id of its Comuna. */
  datatype Barrio = Barrio(id: nat, nombre: string, comuna: nat)

  /** A row of Empresas_licitadoras: company name and an optional tax id. */
  datatype Empresa = Empresa(id: nat, nombre: string, cuit: Option<string>)

  /** A calendar date; how text becomes a date is not part of this model. */
  datatype Fecha = Fecha(anio: int, mes: int, dia: int)

  /**
   * What the Monto_contrato column holds: a number written by the loader,
   * or the raw text the contracting step stores without converting it.
   */
  datatype Monto = Numero(valor: real) | Crudo(texto: string)

  /** A row of Obras. Every reference is the id of a row of its table, or NULL. */
  datatype RegistroObra = RegistroObra(
    entorno: Option<nat>,
    nombreObra: string,
    etapa: Option<nat>,
    tipoObra: Option<nat>,
    areaResponsable: Option<nat>,
    descripcion: Option<string>,
    montoContrato: Option<Monto>,
    barrio: Option<nat>,
    direccion: Option<string>,
    latitud: Option<string>,
    longitud: Option<string>,
    fechaInicio: Option<Fecha>,
    fechaFinInicial: Option<Fecha>,
    financiamiento: Option<nat>,
    plazo: Option<real>,
    porcentajeAvance: Option<real>,
    empresaLicitadora: Option<nat>,
    anioLicitacion: Option<string>,
    tipoContratacion: Option<nat>,
    nroContratacion: Option<string>,
    manoDeObra: Option<int>,
    compromiso: Option<string>,
    destacada: Option<string>,
    baElige: Option<string>,
    expediente: Option<string>)

  /** The index of the first element of `s` that satisfies `p` (a query without ORDER BY, in rowid order). */
  function Primero<T>(s: seq<T>, p: T -> bool): (r: Option<nat>)
    ensures r.Some? ==> r.value < |s| && p(s[r.value]) && forall j :: 0 <= j < r.value ==> !p(s[j])
    ensures r.None? ==> forall j :: 0 <= j < |s| ==> !p(s[j])
  {
    if s == [] then None
    else match Primero(s[..|s| - 1], p)
      case Some(i) => Some(i)
      case None => if p(s[|s| - 1]) then Some(|s| - 1) else None
  }

  /** Ids are row numbers and no two rows share a text. */
  predicate CatalogoValido(t: seq<Entrada>) {
    && (forall i :: 0 <= i < |t| ==> t[i].id == i + 1)
    && (forall i, j :: 0 <= i < j < |t| ==> t[i].texto != t[j].texto)
  }

  /** `Model.get_or_none(campo == texto)` on a lookup table. */
  function Buscar(t: seq<Entrada>, texto: string): (r: Option<nat>)
    ensures r.Some? ==> r.value < |t| && t[r.value].texto == texto
    ensures r.None? ==> forall j :: 0 <= j < |t| ==> t[j].texto != texto
  {
    Primero(t, (e: Entrada) => e.texto == texto)
  }

  /** A nullable reference into a table of `n` rows. */
  predicate RefOk(r: Option<nat>, n: nat) {
    r.None? || 1 <= r.value <= n
  }

  /**
   * The seven lookup tables, one per `Catalogo`: every kind has its table
   * (the constraint names the seven kinds so that the verifier splits on them).
   */
  type Catalogos = m: map<Catalogo, seq<Entrada>> | forall k: Catalogo ::
      k.Etapa? || k.Entorno? || k.TipoObra? || k.AreaResponsable? || k.Comuna? || k.TipoContratacion? || k.Financiamiento?
      ==> k in m
    witness map[Etapa := [], Entorno := [], TipoObra := [], AreaResponsable := [], Comuna := [],
                TipoContratacion := [], Financiamiento := []]

  /** The whole database. */
  datatype Base = Base(
    catalogos: Catalogos,
    barrios: seq<Barrio>,
    empresas: seq<Empresa>,
    obras: seq<RegistroObra>)
  {
    function Tabla(k: Catalogo): seq<Entrada> {
      catalogos[k]
    }

    /** This database with lookup table `k` replaced by `t` and everything else the same. */
    function ConTabla(k: Catalogo, t: seq<Entrada>): (r: Base)
    {
      this.(catalogos := catalogos[k := t])
    }

    /** Every reference of a work record names an existing row. */
    predicate RefsOk(o: RegistroObra) {
      && RefOk(o.entorno, |Tabla(Entorno)|)
      && RefOk(o.etapa, |Tabla(Etapa)|)
      && RefOk(o.tipoObra, |Tabla(TipoObra)|)
      && RefOk(o.areaResponsable, |Tabla(AreaResponsable)|)
      && RefOk(o.barrio, |barrios|)
      && RefOk(o.financiamiento, |Tabla(Financiamiento)|)
      && RefOk(o.empresaLicitadora, |empresas|)
      && RefOk(o.tipoContratacion, |Tabla(TipoContratacion)|)
    }

    /**
     * The database invariant: row ids are row numbers, lookup texts are
     * unique (the schema has no UNIQUE constraint: only the get-or-create
     * discipline keeps them so), a Barrio is unique by (name, comuna) and
     * has an existing Comuna, a company name is unique, and every
     * reference of a work record names an existing row.
     */
    predicate Valid() {
      && (forall k :: CatalogoValido(catalogos[k]))
      && (forall i :: 0 <= i < |barrios| ==> barrios[i].id == i + 1 && 1 <= barrios[i].comuna <= |catalogos[Comuna]|)
      && (forall i, j :: 0 <= i < j < |barrios| ==>
            !(barrios[i].nombre == barrios[j].nombre && barrios[i].comuna == barrios[j].comuna))
      && (forall i :: 0 <= i < |empresas| ==> empresas[i].id == i + 1)
      && (forall i, j :: 0 <= i < j < |empresas| ==> empresas[i].nombre != empresas[j].nombre)
      && (forall i :: 0 <= i < |obras| ==> RefsOk(obras[i]))
    }

    /** `Catalogo.get_or_create(campo=texto)`: the existing row's id, or a new row. */
    function GetOrCreate(k: Catalogo, texto: string): (r: (Base, nat))
    {
      var t := Tabla(k);
      match Buscar(t, texto)
      case Some(i) => (this, t[i].id)
      case None => Crear(k, texto)
    }

  /** `Barrio.get_or_create(Barrio=nombre, Comuna=comuna)`: the query keys on both columns. */
    function GetOrCreateBarrio(nombre: string, comuna: nat): (r: (Base, nat))
    {
      match Primero(barrios, (b: Barrio) => b.nombre == nombre && b.comuna == comuna)
      case Some(i) => (this, barrios[i].id)
      case None => CrearBarrio(nombre, comuna)
    }

    /**
     * `Empresa_licitadora.get_or_create(Empresa=nombre, defaults={'cuit_contratista': cuit})`:
     * the query keys on the name only; the cuit is written only into a new row.
     */
    function GetOrCreateEmpresa(nombre: string, cuit: string): (r: (Base, nat))
    {
      match BuscarEmpresa(nombre)
      case Some(i) => (this, empresas[i].id)
      case None => (this.(empresas := empresas + [Empresa(|empresas| + 1, nombre, Some(cuit))]), |empresas| + 1)
    }

    /** `Empresa_licitadora.get_or_none(Empresa == nombre)`. */
    function BuscarEmpresa(nombre: string): (r: Option<nat>)
      ensures r.Some? ==> r.value < |empresas| && empresas[r.value].nombre == nombre
      ensures r.None? ==> forall j :: 0 <= j < |empresas| ==> empresas[j].nombre != nombre
    {
      Primero(empresas, (e: Empresa) => e.nombre == nombre)
    }

    /** `Barrio.get_or_none(Barrio == nombre)`: the first barrio of that name, in any comuna. */
    function BuscarBarrio(nombre: string): (r: Option<nat>)
      ensures r.Some? ==> r.value < |barrios| && barrios[r.value].nombre == nombre
      ensures r.None? ==> forall j :: 0 <= j < |barrios| ==> barrios[j].nombre != nombre
    {
      Primero(barrios, (b: Barrio) => b.nombre == nombre)
    }

    /** `Model.create(campo=texto)` on a lookup table: a new row, whatever the table holds. */
    function Crear(k: Catalogo, texto: string): (r: (Base, nat))
    {
      var t := Tabla(k);
      (ConTabla(k, t + [Entrada(|t| + 1, texto)]), |t| + 1)
    }

    /** `Barrio.create(Barrio=nombre, Comuna=comuna)`. */
    function CrearBarrio(nombre: string, comuna: nat): (r: (Base, nat))
    {
      (this.(barrios := barrios + [Barrio(|barrios| + 1, nombre, comuna)]), |barrios| + 1)
    }
  }

  /** `b` holds every row of `a` at the same place, and perhaps more. */
  predicate Crece(a: Base, b: Base) {
    && (forall k :: a.catalogos[k] <= b.catalogos[k])
    && a.barrios <= b.barrios
    && a.empresas <= b.empresas
    && a.obras <= b.obras
  }

  /** `b` is `a` with at most lookup table `k` changed. */
  predicate SoloTabla(a: Base, b: Base, k: Catalogo) {
    b == a.ConTabla(k, b.Tabla(k))
  }

  /** `b` is `a` with at most the Comuna and Barrio tables changed. */
  predicate SoloBarrios(a: Base, b: Base) {
    b == a.ConTabla(Comuna, b.Tabla(Comuna)).(barrios := b.barrios)
  }

  lemma SoloTablaRefl(db: Base, k: Catalogo)
    ensures SoloTabla(db, db, k)
  {
    assert db.catalogos[k := db.catalogos[k]] == db.catalogos;
  }

  lemma CreceTrans(a: Base, b: Base, c: Base)
    requires Crece(a, b) && Crece(b, c)
    ensures Crece(a, c)
  {
  }

  /** References that are valid stay valid as the tables grow. */
  lemma RefsCrecen(a: Base, b: Base, o: RegistroObra)
    requires Crece(a, b) && a.RefsOk(o)
    ensures b.RefsOk(o)
  {
    assert a.catalogos[Etapa] <= b.catalogos[Etapa] && a.catalogos[Entorno] <= b.catalogos[Entorno];
    assert a.catalogos[TipoObra] <= b.catalogos[TipoObra] && a.catalogos[AreaResponsable] <= b.catalogos[AreaResponsable];
    assert a.catalogos[Financiamiento] <= b.catalogos[Financiamiento];
    assert a.catalogos[TipoContratacion] <= b.catalogos[TipoContratacion];
  }

  /** Replacing the work records by records whose references are valid keeps the database valid. */
  lemma ConObrasValida(db: Base, obras: seq<RegistroObra>)
    requires db.Valid()
    requires forall i :: 0 <= i < |obras| ==> db.RefsOk(obras[i])
    ensures db.(obras := obras).Valid()
  {
  }

  /** Appending a row whose text is new keeps a lookup table valid. */
  lemma AgregarValido(t: seq<Entrada>, texto: string)
    requires CatalogoValido(t)
    requires forall j :: 0 <= j < |t| ==> t[j].texto != texto
    ensures CatalogoValido(t + [Entrada(|t| + 1, texto)])
  {
  }

  /**
   * A database that differs from a valid one only in lookup tables that
   * grew and are still valid is valid.
   */
  lemma CatalogosValidos(db: Base, db': Base)
    requires db.Valid() && Crece(db, db')
    requires db'.barrios == db.barrios && db'.empresas == db.empresas && db'.obras == db.obras
    requires forall k :: CatalogoValido(db'.catalogos[k])
    ensures db'.Valid()
  {
    assert |db.catalogos[Comuna]| <= |db'.catalogos[Comuna]|;
    forall i | 0 <= i < |db'.obras| ensures db'.RefsOk(db'.obras[i]) {
      RefsCrecen(db, db', db.obras[i]);
    }
  }

  /**
   * Growing lookup table `k` by a row whose text is new keeps the whole
   * database valid.
   */
  lemma ConTablaValida(db: Base, k: Catalogo, texto: string)
    requires db.Valid()
    requires forall j :: 0 <= j < |db.Tabla(k)| ==> db.Tabla(k)[j].texto != texto
    ensures var db' := db.Crear(k, texto).0; Crece(db, db') && db'.Valid() && SoloTabla(db, db', k)
  {
    var t := db.Tabla(k);
    var t' := t + [Entrada(|t| + 1, texto)];
    var d := db.ConTabla(k, t');
    assert db.Crear(k, texto).0 == d;
    AgregarValido(t, texto);
    ConTablaCatalogos(db, k, t');
    CatalogosValidos(db, d);
    assert d.Tabla(k) == t';
  }

  /** Replacing table `k` by a valid table that extends it keeps every table valid and only grows them. */
  lemma ConTablaCatalogos(db: Base, k: Catalogo, t: seq<Entrada>)
    requires forall k' :: CatalogoValido(db.catalogos[k'])
    requires CatalogoValido(t) && db.catalogos[k] <= t
    ensures var d := db.ConTabla(k, t); (forall k' :: CatalogoValido(d.catalogos[k'])) && Crece(db, d)
  {
    var d := db.ConTabla(k, t);
    forall k' ensures CatalogoValido(d.catalogos[k']) && db.catalogos[k'] <= d.catalogos[k'] {
      if k' != k {
        assert d.catalogos[k'] == db.catalogos[k'];
      }
    }
  }

  /**
   * get-or-create on a lookup table keeps the database valid, only grows the
   * tables, touches no other table, and returns the id of a row holding
   * exactly `texto`.
   */
  lemma GetOrCreateSpec(db: Base, k: Catalogo, texto: string)
    requires db.Valid()
    ensures var res := db.GetOrCreate(k, texto); var db' := res.0; var id := res.1;
      && db'.Valid() && Crece(db, db') && SoloTabla(db, db', k)
      && 1 <= id <= |db'.Tabla(k)| && db'.Tabla(k)[id - 1].texto == texto
  {
    var t := db.Tabla(k);
    match Buscar(t, texto)
    case Some(i) =>
      SoloTablaRefl(db, k);
    case None =>
      ConTablaValida(db, k, texto);
  }

  /**
   * The part of get-or-create that needs only its own table to be valid:
   * the table grows, stays valid, nothing else changes, and the id names a
   * row holding `texto`.
   */
  lemma GetOrCreateTexto(db: Base, k: Catalogo, texto: string)
    requires CatalogoValido(db.Tabla(k))
    ensures var res := db.GetOrCreate(k, texto); var db' := res.0; var id := res.1;
      && SoloTabla(db, db', k) && db.Tabla(k) <= db'.Tabla(k) && CatalogoValido(db'.Tabla(k))
      && 1 <= id <= |db'.Tabla(k)| && db'.Tabla(k)[id - 1].texto == texto
  {
    var t := db.Tabla(k);
    match Buscar(t, texto)
    case Some(i) =>
      SoloTablaRefl(db, k);
    case None =>
      AgregarValido(t, texto);
  }

  /**
   * get-or-create creates a row exactly when none holds `texto`: when one
   * does, nothing changes; when none does, the new row is appended.
   */
  lemma GetOrCreateCasos(db: Base, k: Catalogo, texto: string)
    ensures (exists j :: 0 <= j < |db.Tabla(k)| && db.Tabla(k)[j].texto == texto) ==> db.GetOrCreate(k, texto).0 == db
    ensures (forall j :: 0 <= j < |db.Tabla(k)| ==> db.Tabla(k)[j].texto != texto) ==> db.GetOrCreate(k, texto) == db.Crear(k, texto)
  {
    if Buscar(db.Tabla(k), texto).None? {
      assert forall j :: 0 <= j < |db.Tabla(k)| ==> db.Tabla(k)[j].texto != texto;
    }
  }

  /** get-or-create is idempotent: asking again for the same text changes nothing more. */
  lemma {:induction false} GetOrCreateIdempotent(db: Base, k: Catalogo, texto: string)
    ensures var res := db.GetOrCreate(k, texto); var db1 := res.0; var id1 := res.1;
      db1.GetOrCreate(k, texto) == (db1, id1)
  {
    var t := db.Tabla(k);
    if Buscar(t, texto).None? {
      var res := db.Crear(k, texto); var db1 := res.0; var id1 := res.1;
      var t1 := db1.Tabla(k);
      assert t1 == t + [Entrada(|t| + 1, texto)];
      assert t1[..|t1| - 1] == t;
      assert Buscar(t1, texto) == Some(|t|);
    }
  }

  /**
   * The loader's company step: it keeps the database valid, returns a
   * company of that name, and never changes an existing company: an
   * existing name leaves everything as it was, a new name adds one row
   * carrying the given cuit.
   */
  lemma GetOrCreateEmpresaSpec(db: Base, nombre: string, cuit: string)
    requires db.Valid()
    ensures var res := db.GetOrCreateEmpresa(nombre, cuit); var db' := res.0; var id := res.1;
      && db'.Valid() && Crece(db, db')
      && db' == db.(empresas := db'.empresas)
      && 1 <= id <= |db'.empresas| && db'.empresas[id - 1].nombre == nombre
      && ((exists j :: 0 <= j < |db.empresas| && db.empresas[j].nombre == nombre) ==> db' == db)
      && ((forall j :: 0 <= j < |db.empresas| ==> db.empresas[j].nombre != nombre) ==>
            db'.empresas == db.empresas + [Empresa(|db.empresas| + 1, nombre, Some(cuit))])
  {
    match db.BuscarEmpresa(nombre)
    case Some(i) =>
    case None =>
      var db' := db.GetOrCreateEmpresa(nombre, cuit).0;
      assert Crece(db, db');
      forall i | 0 <= i < |db'.obras| ensures db'.RefsOk(db'.obras[i]) {
        RefsCrecen(db, db', db.obras[i]);
      }
  }

  /**
   * Loading a company name twice creates at most one company, and the second
   * cuit is ignored: the second call returns the first call's row unchanged.
   */
  lemma {:induction false} GetOrCreateEmpresaTwice(db: Base, nombre: string, cuit1: string, cuit2: string)
    requires db.Valid()
    ensures var res := db.GetOrCreateEmpresa(nombre, cuit1); var db1 := res.0; var id1 := res.1;
      db1.GetOrCreateEmpresa(nombre, cuit2) == (db1, id1)
      && |db1.empresas| <= |db.empresas| + 1
  {
    GetOrCreateEmpresaSpec(db, nombre, cuit1);
    var res := db.GetOrCreateEmpresa(nombre, cuit1); var db1 := res.0; var id1 := res.1;
    match db1.BuscarEmpresa(nombre)
    case Some(i) =>
      assert db1.Valid();
      assert db1.empresas[id1 - 1].nombre == nombre;
      assert i == id1 - 1;
    case None =>
  }

  /** The loader's barrio step keeps the database valid and returns a barrio of that name in that comuna. */
  lemma GetOrCreateBarrioSpec(db: Base, nombre: string, comuna: nat)
    requires db.Valid() && 1 <= comuna <= |db.Tabla(Comuna)|
    ensures var res := db.GetOrCreateBarrio(nombre, comuna); var db' := res.0; var id := res.1;
      && db'.Valid() && Crece(db, db')
      && db' == db.(barrios := db'.barrios)
      && 1 <= id <= |db'.barrios| && db'.barrios[id - 1].nombre == nombre && db'.barrios[id - 1].comuna == comuna
  {
    match Primero(db.barrios, (b: Barrio) => b.nombre == nombre && b.comuna == comuna)
    case Some(i) =>
    case None =>
      CrearBarrioValido(db, nombre, comuna);
  }

  /**
   * A new barrio whose (name, comuna) pair is new and whose Comuna exists
   * keeps the database valid.
   */
  lemma CrearBarrioValido(db: Base, nombre: string, comuna: nat)
    requires db.Valid() && 1 <= comuna <= |db.Tabla(Comuna)|
    requires forall j :: 0 <= j < |db.barrios| ==> !(db.barrios[j].nombre == nombre && db.barrios[j].comuna == comuna)
    ensures var db' := db.CrearBarrio(nombre, comuna).0; db'.Valid() && Crece(db, db')
  {
    var db' := db.CrearBarrio(nombre, comuna).0;
    assert Crece(db, db');
    forall i | 0 <= i < |db'.obras| ensures db'.RefsOk(db'.obras[i]) {
      RefsCrecen(db, db', db.obras[i]);
    }
  }

  /**
   * The tables of the program's single database connection. Each field is
   * one table; the methods are the ORM operations the registry uses.
   */
  class Store {
    var catalogos: Catalogos
    var barrios: seq<Barrio>
    var empresas: seq<Empresa>
    var obras: seq<RegistroObra>

    /** The database these tables hold. */
    function Estado(): Base
      reads this
    {
      Base(catalogos, barrios, empresas, obras)
    }

    predicate Valid()
      reads this
    {
      Estado().Valid()
    }

    /** A freshly created database (`create_tables`): every table empty. */
    constructor ()
      ensures Valid()
      ensures forall k :: Estado().Tabla(k) == []
      ensures barrios == [] && empresas == [] && obras == []
    {
      catalogos := map[Etapa := [], Entorno := [], TipoObra := [], AreaResponsable := [], Comuna := [],
                       TipoContratacion := [], Financiamiento := []];
      barrios, empresas, obras := [], [], [];
    }

    /** `Model.create(campo=texto)`: adds a row with text `texto` to lookup table `k`. */
    method Agregar(k: Catalogo, texto: string) returns (id: nat)
      modifies this
      ensures (Estado(), id) == old(Estado()).Crear(k, texto)
    {
      var t := catalogos[k];
      id := |t| + 1;
      catalogos := catalogos[k := t + [Entrada(id, texto)]];
    }

    /** `Barrio.create(Barrio=nombre, Comuna=comuna)`. */
    method AgregarBarrio(nombre: string, comuna: nat) returns (id: nat)
      modifies this
      ensures (Estado(), id) == old(Estado()).CrearBarrio(nombre, comuna)
    {
      id := |barrios| + 1;
      barrios := barrios + [Barrio(id, nombre, comuna)];
    }

    /** `Catalogo.get_or_create(campo=texto)` on the live database. */
    method GetOrCreate(k: Catalogo, texto: string) returns (id: nat)
      modifies this
      ensures (Estado(), id) == old(Estado()).GetOrCreate(k, texto)
    {
      var t := catalogos[k];
      var hit := Buscar(t, texto);
      if hit.Some? {
        id := t[hit.value].id;
      } else {
        id := Agregar(k, texto);
      }
    }

    /** `Barrio.get_or_create(Barrio=nombre, Comuna=comuna)` on the live database. */
    method GetOrCreateBarrio(nombre: string, comuna: nat) returns (id: nat)
      modifies this
      ensures (Estado(), id) == old(Estado()).GetOrCreateBarrio(nombre, comuna)
    {
      var hit := Primero(barrios, (b: Barrio) => b.nombre == nombre && b.comuna == comuna);
      if hit.Some? {
        id := barrios[hit.value].id;
      } else {
        id := AgregarBarrio(nombre, comuna);
      }
    }

    /** `Empresa_licitadora.get_or_create(Empresa=nombre, defaults={'cuit_contratista': cuit})`. */
    method GetOrCreateEmpresa(nombre: string, cuit: string) returns (id: nat)
      modifies this
      ensures (Estado(), id) == old(Estado()).GetOrCreateEmpresa(nombre, cuit)
    {
      var hit := Estado().BuscarEmpresa(nombre);
      if hit.Some? {
        id := empresas[hit.value].id;
      } else {
        id := |empresas| + 1;
        empresas := empresas + [Empresa(id, nombre, Some(cuit))];
      }
    }

    /** `Obra.create(...)`: appends a work record and returns its Id_Obra. */
    method InsertarObra(o: RegistroObra) returns (id: nat)
      modifies this
      ensures Estado() == old(Estado()).(obras := old(obras) + [o])
      ensures id == |obras| && obras[id - 1] == o
    {
      obras := obras + [o];
      id := |obras|;
    }

    /** `obra.save()`: writes a work record back over row `id`. */
    method Guardar(id: nat, o: RegistroObra)
      requires 1 <= id <= |obras|
      modifies this
      ensures Estado() == old(Estado()).(obras := old(obras)[id - 1 := o])
    {
      obras := obras[id - 1 := o];
    }
  }
}
