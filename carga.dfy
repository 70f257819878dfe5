/**
 * The bulk loader `ControlObra.cargar_datos` of gestionar_obras.py: every
 * row of the works DataFrame resolves its lookup values with
 * get-or-create (blank ones replaced by placeholders), converts its
 * scalar cells and inserts one work record. A row that raises is skipped;
 * what it created before raising stays, and so do the earlier rows.
 *
 * Each stage of a row is a function on the database value, about which
 * the lemmas speak, and a method on the live `Store` proved equal to it.
 */
module Carga {
  import opened Wrappers
  import opened Texto
  import opened Tablas

  /** The placeholder for a blank type of work, type of contract or funding. */
  const NoEspecificado: string := "No especificado"
  /** The placeholder for a blank company name. */
  const EmpresaDesconocida: string := "Empresa Desconocida"
  /** The placeholder for a blank contractor cuit. */
  const CuitDesconocido: string := "00-00000000-0"

  /**
   * One row of the DataFrame, with its empty cells as None
   * (`df.where(pd.notna(df), None)`). The two dates are the results of
   * `fecha_o_none`, already parsed.
   */
  datatype Fila = Fila(
    entorno: Option<string>,
    nombre: Option<string>,
    etapa: Option<string>,
    tipo: Option<string>,
    areaResponsable: Option<string>,
    descripcion: Option<string>,
    montoContrato: Option<string>,
    comuna: Option<string>,
    barrio: Option<string>,
    direccion: Option<string>,
    lat: Option<string>,
    lng: Option<string>,
    fechaInicio: Option<Fecha>,
    fechaFinInicial: Option<Fecha>,
    plazoMeses: Option<string>,
    porcentajeAvance: Option<string>,
    empresa: Option<string>,
    licitacionAnio: Option<string>,
    contratacionTipo: Option<string>,
    nroContratacion: Option<string>,
    cuitContratista: Option<string>,
    manoObra: Option<string>,
    compromiso: Option<string>,
    destacada: Option<string>,
    baElige: Option<string>,
    expediente: Option<string>,
    financiamiento: Option<string>)

  // ---------------------------------------------------------------------
  // Cell conversions
  // ---------------------------------------------------------------------

  /** A cell Python treats as false: missing, or the empty text. */
  predicate Vacia(c: Option<string>) {
    c.None? || c.value == ""
  }

  /** `valor or defecto` (and `valor if valor else defecto`) on a cell. */
  function OrDefault(c: Option<string>, defecto: string): string {
    if Vacia(c) then defecto else c.value
  }

  /** `str(valor)` on a cell: a missing cell becomes the text "None". */
  function PyStr(c: Option<string>): string {
    match c
    case None => "None"
    case Some(s) => s
  }

  /** The clean-up of `parse_monto`: drop every '$', ' ' and '.', then turn each ',' into '.'. */
  function Normalizar(s: string): string {
    Replace(Replace(Replace(Replace(s, '$', ""), ' ', ""), '.', ""), ',', ".")
  }

  /** `Count(c, "")` is 0 and `Count(c, ".")` counts a '.' */
  lemma CountCortos(c: char)
    ensures Count(c, "") == 0 && Count(c, ".") == if c == '.' then 1 else 0
  {
    assert "."[1..] == "";
  }

  /**
   * The clean-up leaves no '$', space or ',', as many '.' as the input had
   * ',', and every other character as often as before.
   */
  lemma NormalizarSpec(s: string)
    ensures '$' !in Normalizar(s) && ' ' !in Normalizar(s) && ',' !in Normalizar(s)
    ensures Count('.', Normalizar(s)) == Count(',', s)
    ensures forall c :: c != '$' && c != ' ' && c != '.' && c != ',' ==> Count(c, Normalizar(s)) == Count(c, s)
  {
    var s1 := Replace(s, '$', "");
    var s2 := Replace(s1, ' ', "");
    var s3 := Replace(s2, '.', "");
    var s4 := Replace(s3, ',', ".");
    forall c: char
      ensures Count(c, s4) == (if c == '$' || c == ' ' || c == ',' then 0
                               else if c == '.' then Count(',', s) else Count(c, s))
    {
      CountCortos(c);
      CountCortos(',');
      CountReplace(c, s, '$', "");
      CountReplace(c, s1, ' ', "");
      CountReplace(c, s2, '.', "");
      CountReplace(c, s3, ',', ".");
      CountReplace(',', s, '$', "");
      CountReplace(',', s1, ' ', "");
      CountReplace(',', s2, '.', "");
    }
    CountZero('$', s4);
    CountZero(' ', s4);
    CountZero(',', s4);
  }

  /** `parse_monto`: a missing cell and a text `float` rejects after the clean-up are 0. */
  function ParseMonto(c: Option<string>): real {
    match c
    case None => 0.0
    case Some(s) => ParseFloat(Normalizar(s)).GetOr(0.0)
  }

  /** A whole amount written in plain digits (as pandas prints an integer cell) reads as itself. */
  lemma ParseMontoSpec(n: nat)
    ensures ParseMonto(Some(ShowNat(n))) == n as real
  {
    NormalizarDigitos(ShowNat(n));
    ParseFloatShowNat(n);
  }

  /** The clean-up works piece by piece. */
  lemma NormalizarConcat(u: string, v: string)
    ensures Normalizar(u + v) == Normalizar(u) + Normalizar(v)
  {
    ReplaceConcat(u, v, '$', "");
    var u1, v1 := Replace(u, '$', ""), Replace(v, '$', "");
    ReplaceConcat(u1, v1, ' ', "");
    var u2, v2 := Replace(u1, ' ', ""), Replace(v1, ' ', "");
    ReplaceConcat(u2, v2, '.', "");
    var u3, v3 := Replace(u2, '.', ""), Replace(v2, '.', "");
    ReplaceConcat(u3, v3, ',', ".");
  }

  /** The clean-up leaves digits alone. */
  lemma NormalizarDigitos(s: string)
    requires AllDigits(s)
    ensures Normalizar(s) == s
  {
    ReplaceAusente(s, '$', "");
    ReplaceAusente(s, ' ', "");
    ReplaceAusente(s, '.', "");
    ReplaceAusente(s, ',', ".");
  }

  /** The separators: "$" and "." vanish, "," becomes ".". */
  lemma NormalizarSignos()
    ensures Normalizar("$") == "" && Normalizar(".") == "" && Normalizar(",") == "."
  {
    ReplaceUno('$', "");
    ReplaceAusente("", ' ', "");
    ReplaceAusente("", '.', "");
    ReplaceAusente("", ',', ".");
    ReplaceAusente(".", '$', "");
    ReplaceAusente(".", ' ', "");
    ReplaceUno('.', "");
    ReplaceAusente(",", '$', "");
    ReplaceAusente(",", ' ', "");
    ReplaceAusente(",", '.', "");
    ReplaceUno(',', ".");
  }

  /** The clean-up turns Argentine notation into `float` notation. */
  lemma NormalizarArgentino(miles: string, resto: string, dec: string)
    requires AllDigits(miles) && AllDigits(resto) && AllDigits(dec)
    ensures Normalizar("$" + miles + "." + resto + "," + dec) == miles + resto + "." + dec
  {
    NormalizarConcat("$" + miles + "." + resto + ",", dec);
    NormalizarConcat("$" + miles + "." + resto, ",");
    NormalizarConcat("$" + miles + ".", resto);
    NormalizarConcat("$" + miles, ".");
    NormalizarConcat("$", miles);
    NormalizarDigitos(miles);
    NormalizarDigitos(resto);
    NormalizarDigitos(dec);
    NormalizarSignos();
  }

  /**
   * An amount in Argentine notation, "$" then digits with a thousands
   * '.' and a decimal ',', is read as that decimal number (for "$1.234,56",
   * 1234.56).
   */
  lemma ParseMontoArgentino(miles: string, resto: string, dec: string)
    requires AllDigits(miles) && AllDigits(resto) && AllDigits(dec) && |miles| > 0
    ensures ParseMonto(Some("$" + miles + "." + resto + "," + dec)) == Decimal(miles + resto, dec)
  {
    NormalizarArgentino(miles, resto, dec);
    ParseFloatDecimal(miles + resto, dec);
  }

  /** A cell without a digit (such as "invalid") is the amount 0, and so is a missing cell. */
  lemma ParseMontoSinDigitos(c: Option<string>)
    requires c.Some? ==> SinDigitos(c.value)
    ensures ParseMonto(c) == 0.0
  {
    if c.Some? {
      var s := c.value;
      NormalizarSpec(s);
      var n := Normalizar(s);
      forall i | 0 <= i < |n| ensures !IsDigit(n[i]) {
        if IsDigit(n[i]) {
          CountZero(n[i], n);
          CountZero(n[i], s);
        }
      }
      ParseFloatSinDigitos(n);
    }
  }

  /** `convertir_a_int`: `int(valor)`, or 0 when that raises. */
  function ConvertirAInt(s: string): int {
    ParseInt(s).GetOr(0)
  }

  /** `convertir_a_int` reads back every integer Python writes, and gives 0 on a text `int` rejects. */
  lemma ConvertirAIntSpec(n: int, s: string)
    ensures ConvertirAInt(ShowInt(n)) == n
    ensures ParseInt(s).None? ==> ConvertirAInt(s) == 0
  {
    ParseIntShowInt(n);
  }

  /** The headcount column: 0 for a blank cell, otherwise `convertir_a_int`. */
  function ManoDeObra(c: Option<string>): int {
    if Vacia(c) then 0 else ConvertirAInt(c.value)
  }

  /** The progress column: 0.0 for a blank cell, otherwise `float(valor)`, which may raise (None). */
  function Porcentaje(c: Option<string>): Option<real> {
    if Vacia(c) then Some(0.0) else ParseFloat(c.value)
  }

  // ---------------------------------------------------------------------
  // One row
  // ---------------------------------------------------------------------

  /**
   * A run of lookups on catalog tables, each keyed on a cell, in order:
   * the ids they resolve to, or None from the first missing key on, since
   * creating a row with a missing NOT NULL column raises. What was created
   * before that stays.
   */
  function Resolver(db: Base, pasos: seq<(Catalogo, Option<string>)>): (r: (Base, Option<seq<nat>>))
    ensures r.1.Some? ==> |r.1.value| == |pasos|
    decreases |pasos|
  {
    if pasos == [] then (db, Some([]))
    else if pasos[0].1.None? then (db, None)
    else
      var g := db.GetOrCreate(pasos[0].0, pasos[0].1.value);
      var r := Resolver(g.0, pasos[1..]);
      (r.0, if r.1.None? then None else Some([g.1] + r.1.value))
  }

  /** Every lookup table is valid. */
  predicate CatalogosOk(db: Base) {
    forall k :: CatalogoValido(db.Tabla(k))
  }

  /** The first lookup of a run, then the rest. */
  lemma ResolverUnPaso(db: Base, pasos: seq<(Catalogo, Option<string>)>)
    requires pasos != [] && pasos[0].1.Some?
    ensures var g := db.GetOrCreate(pasos[0].0, pasos[0].1.value);
      var r := Resolver(g.0, pasos[1..]);
      Resolver(db, pasos).0 == r.0 && Resolver(db, pasos).1 == if r.1.None? then None else Some([g.1] + r.1.value)
  {
  }

  /** A run of lookups keeps the database valid and changes only the catalog tables, by growing them. */
  lemma {:induction false} ResolverValida(db: Base, pasos: seq<(Catalogo, Option<string>)>)
    requires db.Valid()
    ensures var d := Resolver(db, pasos).0;
      d.Valid() && Crece(db, d) && d.obras == db.obras && d.barrios == db.barrios && d.empresas == db.empresas
    decreases |pasos|
  {
    if pasos != [] && pasos[0].1.Some? {
      GetOrCreateSpec(db, pasos[0].0, pasos[0].1.value);
      var d1 := db.GetOrCreate(pasos[0].0, pasos[0].1.value).0;
      ResolverValida(d1, pasos[1..]);
      ResolverUnPaso(db, pasos);
      CreceTrans(db, d1, Resolver(d1, pasos[1..]).0);
    }
  }

  /** One lookup keeps every catalog table valid and only grows them; its id names a row holding its key. */
  lemma GetOrCreateCatalogos(db: Base, k: Catalogo, texto: string)
    requires CatalogosOk(db)
    ensures var g := db.GetOrCreate(k, texto);
      && CatalogosOk(g.0) && (forall k2 :: db.Tabla(k2) <= g.0.Tabla(k2))
      && 1 <= g.1 <= |g.0.Tabla(k)| && g.0.Tabla(k)[g.1 - 1].texto == texto
  {
    GetOrCreateTexto(db, k, texto);
    var d1 := db.GetOrCreate(k, texto).0;
    forall k2 ensures CatalogoValido(d1.Tabla(k2)) && db.Tabla(k2) <= d1.Tabla(k2) {
      if k2 != k {
        assert d1.Tabla(k2) == db.Tabla(k2);
      }
    }
  }

  /** A run of lookups keeps every catalog table valid, and only grows them. */
  lemma {:induction false} ResolverTablas(db: Base, pasos: seq<(Catalogo, Option<string>)>)
    requires CatalogosOk(db)
    ensures var d := Resolver(db, pasos).0;
      CatalogosOk(d) && forall k :: db.Tabla(k) <= d.Tabla(k)
    decreases |pasos|
  {
    if pasos != [] && pasos[0].1.Some? {
      GetOrCreateCatalogos(db, pasos[0].0, pasos[0].1.value);
      var d1 := db.GetOrCreate(pasos[0].0, pasos[0].1.value).0;
      ResolverTablas(d1, pasos[1..]);
      ResolverUnPaso(db, pasos);
    }
  }

  /** A run of lookups fails exactly when some key is missing. */
  lemma {:induction false} ResolverFalla(db: Base, pasos: seq<(Catalogo, Option<string>)>)
    ensures Resolver(db, pasos).1.Some? <==> forall i :: 0 <= i < |pasos| ==> pasos[i].1.Some?
    decreases |pasos|
  {
    if pasos != [] && pasos[0].1.Some? {
      var d1 := db.GetOrCreate(pasos[0].0, pasos[0].1.value).0;
      ResolverFalla(d1, pasos[1..]);
      ResolverUnPaso(db, pasos);
      if Resolver(db, pasos).1.None? {
        var j :| 0 <= j < |pasos[1..]| && pasos[1..][j].1.None?;
        assert pasos[j + 1].1.None?;
      } else {
        forall i | 0 <= i < |pasos| ensures pasos[i].1.Some? {
          if i > 0 { assert pasos[i] == pasos[1..][i - 1]; }
        }
      }
    } else if pasos != [] {
      assert pasos[0].1.None?;
    }
  }

  /** Lookup `p` resolved to `id` in `d`: its key is present and row `id` of its table holds it. */
  predicate Resuelto(d: Base, p: (Catalogo, Option<string>), id: nat) {
    p.1.Some? && 1 <= id <= |d.Tabla(p.0)| && d.Tabla(p.0)[id - 1].texto == p.1.value
  }

  /** A resolved lookup stays resolved as the tables grow. */
  lemma ResueltoCrece(d: Base, d': Base, p: (Catalogo, Option<string>), id: nat)
    requires Resuelto(d, p, id) && d.Tabla(p.0) <= d'.Tabla(p.0)
    ensures Resuelto(d', p, id)
  {
    assert d'.Tabla(p.0)[id - 1] == d.Tabla(p.0)[id - 1];
  }

  /** Each id a run of lookups gives names a row of its lookup's table holding its key. */
  lemma {:induction false} ResolverIds(db: Base, pasos: seq<(Catalogo, Option<string>)>)
    requires CatalogosOk(db)
    ensures var r := Resolver(db, pasos);
      r.1.Some? ==> forall i :: 0 <= i < |pasos| ==> Resuelto(r.0, pasos[i], r.1.value[i])
    decreases |pasos|
  {
    if pasos != [] && pasos[0].1.Some? {
      var g := db.GetOrCreate(pasos[0].0, pasos[0].1.value);
      GetOrCreateCatalogos(db, pasos[0].0, pasos[0].1.value);
      ResolverIds(g.0, pasos[1..]);
      ResolverUnPaso(db, pasos);
      var r := Resolver(g.0, pasos[1..]);
      if r.1.Some? {
        ResolverTablas(g.0, pasos[1..]);
        ResueltoCrece(g.0, r.0, pasos[0], g.1);
        ResueltosPrefijo(r.0, pasos, g.1, r.1.value);
      }
    }
  }

  /** Resolving the first lookup to `id` and the rest to `ids` resolves the whole run to `[id] + ids`. */
  lemma ResueltosPrefijo(d: Base, pasos: seq<(Catalogo, Option<string>)>, id: nat, ids: seq<nat>)
    requires pasos != [] && |ids| == |pasos| - 1 && Resuelto(d, pasos[0], id)
    requires forall i :: 0 <= i < |pasos[1..]| ==> Resuelto(d, pasos[1..][i], ids[i])
    ensures forall i :: 0 <= i < |pasos| ==> Resuelto(d, pasos[i], ([id] + ids)[i])
  {
    var v := [id] + ids;
    forall i | 1 <= i < |pasos| ensures Resuelto(d, pasos[i], v[i]) {
      assert v[i] == ids[i - 1] && pasos[i] == pasos[1..][i - 1];
    }
  }

  /** The lookups of lines 219-228, with the placeholder for a blank type of work or of contract. */
  function Consultas(f: Fila): seq<(Catalogo, Option<string>)> {
    [(Entorno, f.entorno), (Etapa, f.etapa), (TipoObra, Some(OrDefault(f.tipo, NoEspecificado))),
     (AreaResponsable, f.areaResponsable), (TipoContratacion, Some(OrDefault(f.contratacionTipo, NoEspecificado))),
     (Comuna, f.comuna)]
  }

  /** The ids the lookups of a row resolve to. */
  datatype Clasificacion = Clasificacion(entorno: nat, etapa: nat, tipo: nat, area: nat, contratacion: nat, comuna: nat)

  /** Lines 219-228: Entorno, Etapa, Tipo_obra, Area_responsable, Tipo_contratacion and Comuna, in that order. */
  function Clasificar(db: Base, f: Fila): (Base, Option<Clasificacion>)
  {
    var r := Resolver(db, Consultas(f));
    if r.1.None? then (r.0, None)
    else
      var v := r.1.value;
      (r.0, Some(Clasificacion(v[0], v[1], v[2], v[3], v[4], v[5])))
  }

  /** The ids of every row a record of this row references. */
  datatype Refs = Refs(c: Clasificacion, barrio: nat, financiamiento: nat, empresa: nat)

  /**
   * Lines 219-240: the lookups, the Barrio, the funding (placeholder when
   * blank) and the company, keyed on its name only (placeholders for a
   * blank name or cuit). None when a lookup raises; what was created
   * before that stays.
   */
  function Referencias(db: Base, f: Fila): (Base, Option<Refs>)
  {
    var c := Clasificar(db, f);
    if c.1.None? || f.barrio.None? then (c.0, None)
    else
      var p := Completar(c.0, f, c.1.value);
      (p.0, Some(p.1))
  }

  /** Lines 229-240, once the lookups gave `c`: the Barrio, the funding and the company. */
  function Completar(d1: Base, f: Fila, c: Clasificacion): (Base, Refs)
    requires f.barrio.Some?
  {
    var barrio := d1.GetOrCreateBarrio(f.barrio.value, c.comuna);
    var fin := barrio.0.GetOrCreate(Financiamiento, OrDefault(f.financiamiento, NoEspecificado));
    var emp := fin.0.GetOrCreateEmpresa(OrDefault(f.empresa, EmpresaDesconocida), OrDefault(f.cuitContratista, CuitDesconocido));
    (emp.0, Refs(c, barrio.1, fin.1, emp.1))
  }

  /** The keyword arguments of `Obra.create` (lines 243-272). */
  function NuevaObra(f: Fila, r: Refs, porcentaje: real): RegistroObra
    requires f.nombre.Some?
  {
    RegistroObra(
      entorno := Some(r.c.entorno), nombreObra := f.nombre.value, etapa := Some(r.c.etapa), tipoObra := Some(r.c.tipo),
      areaResponsable := Some(r.c.area), descripcion := f.descripcion,
      montoContrato := Some(Numero(ParseMonto(f.montoContrato))), barrio := Some(r.barrio),
      direccion := f.direccion, latitud := Some(PyStr(f.lat)), longitud := Some(PyStr(f.lng)),
      fechaInicio := f.fechaInicio, fechaFinInicial := f.fechaFinInicial, financiamiento := Some(r.financiamiento),
      plazo := Some(ParseMonto(f.plazoMeses)), porcentajeAvance := Some(porcentaje),
      empresaLicitadora := Some(r.empresa), anioLicitacion := Some(PyStr(f.licitacionAnio)),
      tipoContratacion := Some(r.c.contratacion), nroContratacion := f.nroContratacion,
      manoDeObra := Some(ManoDeObra(f.manoObra)), compromiso := f.compromiso, destacada := f.destacada,
      baElige := f.baElige, expediente := f.expediente)
  }

  /**
   * One iteration of the row loop (lines 218-274): the database after it,
   * and whether the row was inserted and counted. The progress cell is
   * converted after the lookups, so a bad one still leaves their rows.
   */
  function ConFila(db: Base, f: Fila): (Base, bool)
  {
    var p := Referencias(db, f);
    var pct := Porcentaje(f.porcentajeAvance);
    if p.1.None? || pct.None? || f.nombre.None? then (p.0, false)
    else (p.0.(obras := p.0.obras + [NuevaObra(f, p.1.value, pct.value)]), true)
  }

  /**
   * Whether a row is inserted depends on the row alone: its entorno,
   * etapa, area, comuna, barrio and name are present and its progress
   * cell is blank or a number.
   */
  predicate FilaValida(f: Fila) {
    && f.entorno.Some? && f.etapa.Some? && f.areaResponsable.Some? && f.comuna.Some? && f.barrio.Some?
    && f.nombre.Some? && Porcentaje(f.porcentajeAvance).Some?
  }

  /** The lookups of a row keep the database valid and touch only the catalog tables. */
  lemma ClasificarValida(db: Base, f: Fila)
    requires db.Valid()
    ensures var d := Clasificar(db, f).0;
      d.Valid() && Crece(db, d) && d.obras == db.obras && d.barrios == db.barrios && d.empresas == db.empresas
  {
    ResolverValida(db, Consultas(f));
  }

  /**
   * The lookups of a row fail exactly when its entorno, etapa, area or
   * comuna is missing; each id names a row of its table holding the cell's
   * text, or the placeholder for a blank type of work or of contract.
   */
  lemma ClasificarSpec(db: Base, f: Fila)
    requires CatalogosOk(db)
    ensures var p := Clasificar(db, f);
      && CatalogosOk(p.0) && (forall k :: db.Tabla(k) <= p.0.Tabla(k))
      && (p.1.Some? <==> f.entorno.Some? && f.etapa.Some? && f.areaResponsable.Some? && f.comuna.Some?)
      && (p.1.Some? ==> ClasificacionOk(p.0, f, p.1.value))
  {
    var q := Consultas(f);
    ResolverTablas(db, q);
    ResolverFalla(db, q);
    ResolverIds(db, q);
    var ids := Resolver(db, q).1;
    if ids.None? {
      var i :| 0 <= i < |q| && q[i].1.None?;
      assert i == 0 || i == 1 || i == 3 || i == 5;
    } else {
      assert q[0].1.Some? && q[1].1.Some? && q[3].1.Some? && q[5].1.Some?;
    }
  }

  /**
   * Each id of a row's classification names a row of its table holding the
   * cell's text, or the placeholder for a blank type of work or of contract.
   */
  predicate ClasificacionOk(d: Base, f: Fila, c: Clasificacion) {
    && Resuelto(d, (Entorno, f.entorno), c.entorno)
    && Resuelto(d, (Etapa, f.etapa), c.etapa)
    && Resuelto(d, (TipoObra, Some(OrDefault(f.tipo, NoEspecificado))), c.tipo)
    && Resuelto(d, (AreaResponsable, f.areaResponsable), c.area)
    && Resuelto(d, (TipoContratacion, Some(OrDefault(f.contratacionTipo, NoEspecificado))), c.contratacion)
    && Resuelto(d, (Comuna, f.comuna), c.comuna)
  }

  /** A row's lookups fail exactly when one of their keys is missing. */
  lemma ClasificarFalla(db: Base, f: Fila)
    ensures Clasificar(db, f).1.Some? <==> f.entorno.Some? && f.etapa.Some? && f.areaResponsable.Some? && f.comuna.Some?
  {
    var q := Consultas(f);
    ResolverFalla(db, q);
    if Resolver(db, q).1.None? {
      var i :| 0 <= i < |q| && q[i].1.None?;
      assert i == 0 || i == 1 || i == 3 || i == 5;
    } else {
      assert q[0].1.Some? && q[1].1.Some? && q[3].1.Some? && q[5].1.Some?;
    }
  }

  /** Whether a row is inserted depends on the row alone, not on what the tables hold. */
  lemma ConFilaInserta(db: Base, f: Fila)
    ensures ConFila(db, f).1 <==> FilaValida(f)
  {
    ClasificarFalla(db, f);
  }

  /** A classification stays right as the tables grow. */
  lemma ClasificacionCrece(d: Base, d': Base, f: Fila, c: Clasificacion)
    requires ClasificacionOk(d, f, c) && forall k :: d.Tabla(k) <= d'.Tabla(k)
    ensures ClasificacionOk(d', f, c)
  {
    ResueltoCrece(d, d', (Entorno, f.entorno), c.entorno);
    ResueltoCrece(d, d', (Etapa, f.etapa), c.etapa);
    ResueltoCrece(d, d', (TipoObra, Some(OrDefault(f.tipo, NoEspecificado))), c.tipo);
    ResueltoCrece(d, d', (AreaResponsable, f.areaResponsable), c.area);
    ResueltoCrece(d, d', (TipoContratacion, Some(OrDefault(f.contratacionTipo, NoEspecificado))), c.contratacion);
    ResueltoCrece(d, d', (Comuna, f.comuna), c.comuna);
  }

  /**
   * The references of a row are right: the lookups as `ClasificacionOk`
   * says, the funding names a row holding the cell's text or "No
   * especificado", the barrio a row with the cell's name in the row's
   * comuna, the company a row holding the cell's name or "Empresa
   * Desconocida".
   */
  predicate RefsFila(d: Base, f: Fila, r: Refs) {
    && ClasificacionOk(d, f, r.c)
    && Resuelto(d, (Financiamiento, Some(OrDefault(f.financiamiento, NoEspecificado))), r.financiamiento)
    && f.barrio.Some? && 1 <= r.barrio <= |d.barrios|
    && d.barrios[r.barrio - 1].nombre == f.barrio.value && d.barrios[r.barrio - 1].comuna == r.c.comuna
    && 1 <= r.empresa <= |d.empresas| && d.empresas[r.empresa - 1].nombre == OrDefault(f.empresa, EmpresaDesconocida)
  }

  /**
   * The references stage keeps the database valid, only grows it, leaves
   * the Obras table alone, fails exactly when one of the five keys is
   * missing, and otherwise gives the right references.
   */
  lemma ReferenciasSpec(db: Base, f: Fila)
    requires db.Valid()
    ensures var p := Referencias(db, f);
      && p.0.Valid() && Crece(db, p.0) && p.0.obras == db.obras
      && (p.1.Some? <==> f.entorno.Some? && f.etapa.Some? && f.areaResponsable.Some? && f.comuna.Some? && f.barrio.Some?)
      && (p.1.Some? ==> RefsFila(p.0, f, p.1.value))
  {
    ClasificarValida(db, f);
    ClasificarFalla(db, f);
    var c := Clasificar(db, f);
    if c.1.Some? && f.barrio.Some? {
      ReferenciasCompletas(db, f);
    } else {
      assert Referencias(db, f) == (c.0, None);
    }
  }

  /** The references stage when every key is present: `Completar` runs on the classified tables. */
  lemma ReferenciasCompletas(db: Base, f: Fila)
    requires db.Valid() && Clasificar(db, f).1.Some? && f.barrio.Some?
    ensures var p := Referencias(db, f);
      && p.0.Valid() && Crece(db, p.0) && p.0.obras == db.obras
      && p.1.Some? && RefsFila(p.0, f, p.1.value)
  {
    ClasificarValida(db, f);
    ClasificarSpec(db, f);
    var c := Clasificar(db, f);
    var q := Completar(c.0, f, c.1.value);
    assert Referencias(db, f) == (q.0, Some(q.1));
    CompletarSpec(c.0, f, c.1.value);
    CreceTrans(db, c.0, q.0);
  }

  /** The tail of the references stage keeps the database valid and gives the right references. */
  lemma CompletarSpec(d1: Base, f: Fila, c: Clasificacion)
    requires d1.Valid() && f.barrio.Some? && ClasificacionOk(d1, f, c)
    ensures var p := Completar(d1, f, c);
      && p.0.Valid() && Crece(d1, p.0) && p.0.obras == d1.obras && RefsFila(p.0, f, p.1)
      && (|p.0.empresas| > |d1.empresas| ==>
            p.0.empresas[p.1.empresa - 1].cuit == Some(OrDefault(f.cuitContratista, CuitDesconocido)))
  {
    CompletarValida(d1, f, c);
    CompletarRefs(d1, f, c);
    CompletarCuit(d1, f, c);
  }

  /**
   * A company `Completar` creates is the one the row's references name,
   * and it carries the row's cuit, or "00-00000000-0" when that cell is
   * blank; a company that already existed keeps its own.
   */
  lemma CompletarCuit(d1: Base, f: Fila, c: Clasificacion)
    requires d1.Valid() && f.barrio.Some? && ClasificacionOk(d1, f, c)
    ensures var p := Completar(d1, f, c);
      |p.0.empresas| > |d1.empresas| ==>
        1 <= p.1.empresa <= |p.0.empresas|
        && p.0.empresas[p.1.empresa - 1].cuit == Some(OrDefault(f.cuitContratista, CuitDesconocido))
  {
    var b := d1.GetOrCreateBarrio(f.barrio.value, c.comuna);
    var fin := b.0.GetOrCreate(Financiamiento, OrDefault(f.financiamiento, NoEspecificado));
    assert fin.0.empresas == b.0.empresas == d1.empresas;
    var cuit := OrDefault(f.cuitContratista, CuitDesconocido);
    var emp := fin.0.GetOrCreateEmpresa(OrDefault(f.empresa, EmpresaDesconocida), cuit);
    CompletarPasos(d1, f, c);
    if |emp.0.empresas| > |fin.0.empresas| {
      assert emp.0.empresas == fin.0.empresas + [Empresa(|fin.0.empresas| + 1, OrDefault(f.empresa, EmpresaDesconocida), Some(cuit))];
    }
  }

  /** The three get-or-create steps of `Completar` keep the database valid and only grow it. */
  lemma CompletarValida(d1: Base, f: Fila, c: Clasificacion)
    requires d1.Valid() && f.barrio.Some? && ClasificacionOk(d1, f, c)
    ensures var p := Completar(d1, f, c);
      p.0.Valid() && Crece(d1, p.0) && p.0.obras == d1.obras
  {
    var texto := OrDefault(f.financiamiento, NoEspecificado);
    var b := d1.GetOrCreateBarrio(f.barrio.value, c.comuna);
    CompletarBarrio(d1, f, c);
    var fin := b.0.GetOrCreate(Financiamiento, texto);
    CompletarFinanciamiento(b.0, texto);
    CompletarEmpresa(fin.0, OrDefault(f.empresa, EmpresaDesconocida), OrDefault(f.cuitContratista, CuitDesconocido));
    CreceTrans(d1, b.0, fin.0);
  }

  /** The references `Completar` gives are right in the database it leaves. */
  lemma CompletarRefs(d1: Base, f: Fila, c: Clasificacion)
    requires d1.Valid() && f.barrio.Some? && ClasificacionOk(d1, f, c)
    ensures var p := Completar(d1, f, c); RefsFila(p.0, f, p.1)
  {
    var texto := OrDefault(f.financiamiento, NoEspecificado);
    var nombre := OrDefault(f.empresa, EmpresaDesconocida);
    var cuit := OrDefault(f.cuitContratista, CuitDesconocido);
    var b := d1.GetOrCreateBarrio(f.barrio.value, c.comuna);
    CompletarBarrio(d1, f, c);
    var fin := b.0.GetOrCreate(Financiamiento, texto);
    CompletarFinanciamiento(b.0, texto);
    var emp := fin.0.GetOrCreateEmpresa(nombre, cuit);
    CompletarEmpresa(fin.0, nombre, cuit);
    RefsPorPasos(d1, b.0, fin.0, emp.0, f, Refs(c, b.1, fin.1, emp.1));
    CompletarPasos(d1, f, c);
  }

  /** `Completar` is its three get-or-create steps, each on the database the one before left. */
  lemma CompletarPasos(d1: Base, f: Fila, c: Clasificacion)
    requires f.barrio.Some?
    ensures var b := d1.GetOrCreateBarrio(f.barrio.value, c.comuna);
      var fin := b.0.GetOrCreate(Financiamiento, OrDefault(f.financiamiento, NoEspecificado));
      var emp := fin.0.GetOrCreateEmpresa(OrDefault(f.empresa, EmpresaDesconocida), OrDefault(f.cuitContratista, CuitDesconocido));
      Completar(d1, f, c) == (emp.0, Refs(c, b.1, fin.1, emp.1))
  {
  }

  /**
   * References found step by step, each in the database one step left,
   * are right in the database the last step leaves.
   */
  lemma RefsPorPasos(d1: Base, d2: Base, d3: Base, d4: Base, f: Fila, r: Refs)
    requires Crece(d1, d2) && Crece(d2, d3) && Crece(d3, d4) && ClasificacionOk(d1, f, r.c)
    requires f.barrio.Some? && 1 <= r.barrio <= |d2.barrios| && d4.barrios == d3.barrios == d2.barrios
    requires d2.barrios[r.barrio - 1].nombre == f.barrio.value && d2.barrios[r.barrio - 1].comuna == r.c.comuna
    requires Resuelto(d3, (Financiamiento, Some(OrDefault(f.financiamiento, NoEspecificado))), r.financiamiento)
    requires 1 <= r.empresa <= |d4.empresas| && d4.empresas[r.empresa - 1].nombre == OrDefault(f.empresa, EmpresaDesconocida)
    ensures RefsFila(d4, f, r)
  {
    CreceTrans(d1, d2, d3);
    CreceTrans(d1, d3, d4);
    ClasificacionCrece(d1, d4, f, r.c);
    ResueltoCrece(d3, d4, (Financiamiento, Some(OrDefault(f.financiamiento, NoEspecificado))), r.financiamiento);
  }

  /** The barrio step of `Completar` finds a barrio of the row's name in the row's comuna. */
  lemma CompletarBarrio(d1: Base, f: Fila, c: Clasificacion)
    requires d1.Valid() && f.barrio.Some? && ClasificacionOk(d1, f, c)
    ensures var p := d1.GetOrCreateBarrio(f.barrio.value, c.comuna);
      && p.0.Valid() && Crece(d1, p.0) && p.0.catalogos == d1.catalogos && p.0.obras == d1.obras
      && 1 <= p.1 <= |p.0.barrios| && p.0.barrios[p.1 - 1].nombre == f.barrio.value
      && p.0.barrios[p.1 - 1].comuna == c.comuna
  {
    GetOrCreateBarrioSpec(d1, f.barrio.value, c.comuna);
  }

  /** The funding step of `Completar` resolves the funding text and leaves barrios and works alone. */
  lemma CompletarFinanciamiento(d2: Base, texto: string)
    requires d2.Valid()
    ensures var p := d2.GetOrCreate(Financiamiento, texto);
      && p.0.Valid() && Crece(d2, p.0) && p.0.barrios == d2.barrios && p.0.obras == d2.obras
      && Resuelto(p.0, (Financiamiento, Some(texto)), p.1)
  {
    GetOrCreateSpec(d2, Financiamiento, texto);
  }

  /** The company step of `Completar` finds a company of that name and touches no other table. */
  lemma CompletarEmpresa(d3: Base, nombre: string, cuit: string)
    requires d3.Valid()
    ensures var p := d3.GetOrCreateEmpresa(nombre, cuit);
      && p.0.Valid() && Crece(d3, p.0) && p.0.catalogos == d3.catalogos
      && p.0.barrios == d3.barrios && p.0.obras == d3.obras
      && 1 <= p.1 <= |p.0.empresas| && p.0.empresas[p.1 - 1].nombre == nombre
  {
    GetOrCreateEmpresaSpec(d3, nombre, cuit);
  }

  /**
   * The record a row inserts, in full: its scalar columns are `Datos(f)`
   * and its references are right (`RefsFila`).
   */
  predicate Insertada(d: Base, f: Fila, o: RegistroObra)
    requires FilaValida(f)
  {
    && SinRefs(o) == Datos(f)
    && o.entorno.Some? && o.etapa.Some? && o.tipoObra.Some? && o.areaResponsable.Some?
    && o.tipoContratacion.Some? && o.financiamiento.Some? && o.barrio.Some? && o.empresaLicitadora.Some?
    && 1 <= o.barrio.value <= |d.barrios|
    && RefsFila(d, f, Refs(
         Clasificacion(o.entorno.value, o.etapa.value, o.tipoObra.value, o.areaResponsable.value,
                       o.tipoContratacion.value, d.barrios[o.barrio.value - 1].comuna),
         o.barrio.value, o.financiamiento.value, o.empresaLicitadora.value))
  }

  /**
   * The scalar columns of the record a valid row inserts: what the row's
   * cells become, whatever the tables hold. Its references are left NULL.
   */
  function Datos(f: Fila): RegistroObra
    requires FilaValida(f)
  {
    RegistroObra(
      entorno := None, nombreObra := f.nombre.value, etapa := None, tipoObra := None,
      areaResponsable := None, descripcion := f.descripcion,
      montoContrato := Some(Numero(ParseMonto(f.montoContrato))), barrio := None,
      direccion := f.direccion, latitud := Some(PyStr(f.lat)), longitud := Some(PyStr(f.lng)),
      fechaInicio := f.fechaInicio, fechaFinInicial := f.fechaFinInicial, financiamiento := None,
      plazo := Some(ParseMonto(f.plazoMeses)), porcentajeAvance := Porcentaje(f.porcentajeAvance),
      empresaLicitadora := None, anioLicitacion := Some(PyStr(f.licitacionAnio)),
      tipoContratacion := None, nroContratacion := f.nroContratacion,
      manoDeObra := Some(ManoDeObra(f.manoObra)), compromiso := f.compromiso, destacada := f.destacada,
      baElige := f.baElige, expediente := f.expediente)
  }

  /** A record with its eight references cleared. */
  function SinRefs(o: RegistroObra): RegistroObra {
    o.(entorno := None, etapa := None, tipoObra := None, areaResponsable := None, barrio := None,
       financiamiento := None, empresaLicitadora := None, tipoContratacion := None)
  }

  /** The record built from right references is the record `Insertada` describes. */
  lemma NuevaObraInsertada(d: Base, f: Fila, r: Refs)
    requires FilaValida(f) && RefsFila(d, f, r)
    ensures Insertada(d, f, NuevaObra(f, r, Porcentaje(f.porcentajeAvance).value))
  {
    var o := NuevaObra(f, r, Porcentaje(f.porcentajeAvance).value);
    assert SinRefs(o) == Datos(f);
    assert Clasificacion(o.entorno.value, o.etapa.value, o.tipoObra.value, o.areaResponsable.value,
                         o.tipoContratacion.value, d.barrios[o.barrio.value - 1].comuna) == r.c;
  }

  /**
   * One row keeps the database valid and only grows it. The Obras table
   * gains one record, described by `Insertada`, exactly when the row is
   * valid, and is otherwise unchanged; the lookup rows a failing row
   * created before failing stay.
   */
  lemma ConFilaSpec(db: Base, f: Fila)
    requires db.Valid()
    ensures var p := ConFila(db, f);
      && p.0.Valid() && Crece(db, p.0) && (p.1 <==> FilaValida(f))
      && (p.1 ==> |p.0.obras| == |db.obras| + 1 && Insertada(p.0, f, p.0.obras[|db.obras|]))
      && (!p.1 ==> p.0.obras == db.obras)
  {
    ConFilaInserta(db, f);
    ReferenciasSpec(db, f);
    var q := Referencias(db, f);
    var d4 := q.0;
    var r := q.1;
    var pct := Porcentaje(f.porcentajeAvance);
    if r.Some? && pct.Some? && f.nombre.Some? {
      var d := d4.(obras := d4.obras + [NuevaObra(f, r.value, pct.value)]);
      assert ConFila(db, f) == (d, true);
      AgregarObra(d4, f, r.value);
      CreceTrans(db, d4, d);
    } else {
      assert ConFila(db, f) == (d4, false);
    }
  }

  /**
   * When a row inserts a record and creates a company, the record's company
   * is that new one, and it carries the row's cuit, or "00-00000000-0" when
   * the cell is blank.
   */
  lemma ConFilaCuit(db: Base, f: Fila)
    requires db.Valid()
    ensures var p := ConFila(db, f);
      p.1 && |p.0.empresas| > |db.empresas| ==>
        && |p.0.obras| == |db.obras| + 1
        && var e := p.0.obras[|db.obras|].empresaLicitadora;
        && e.Some? && 1 <= e.value <= |p.0.empresas|
        && p.0.empresas[e.value - 1].cuit == Some(OrDefault(f.cuitContratista, CuitDesconocido))
        && (Vacia(f.cuitContratista) ==> p.0.empresas[e.value - 1].cuit == Some(CuitDesconocido))
  {
    var q := Referencias(db, f);
    var pct := Porcentaje(f.porcentajeAvance);
    ReferenciasCuit(db, f);
    if q.1.Some? && pct.Some? && f.nombre.Some? {
      var o := NuevaObra(f, q.1.value, pct.value);
      assert ConFila(db, f) == (q.0.(obras := q.0.obras + [o]), true);
      assert o.empresaLicitadora == Some(q.1.value.empresa);
    }
  }

  /** The company a row's references name, when the row created it, carries the row's cuit or the placeholder. */
  lemma ReferenciasCuit(db: Base, f: Fila)
    requires db.Valid()
    ensures var p := Referencias(db, f);
      p.1.Some? ==>
        && p.0.obras == db.obras
        && (|p.0.empresas| > |db.empresas| ==>
              1 <= p.1.value.empresa <= |p.0.empresas|
              && p.0.empresas[p.1.value.empresa - 1].cuit == Some(OrDefault(f.cuitContratista, CuitDesconocido)))
  {
    var c := Clasificar(db, f);
    if c.1.Some? && f.barrio.Some? {
      ClasificarValida(db, f);
      ClasificarSpec(db, f);
      var q := Completar(c.0, f, c.1.value);
      assert Referencias(db, f) == (q.0, Some(q.1));
      CompletarValida(c.0, f, c.1.value);
      CompletarCuit(c.0, f, c.1.value);
    }
  }

  /** Appending the record of a valid row: one more record, the one `Insertada` describes. */
  lemma AgregarObra(d: Base, f: Fila, r: Refs)
    requires d.Valid() && FilaValida(f) && RefsFila(d, f, r)
    ensures var d' := d.(obras := d.obras + [NuevaObra(f, r, Porcentaje(f.porcentajeAvance).value)]);
      && d'.Valid() && Crece(d, d') && |d'.obras| == |d.obras| + 1 && Insertada(d', f, d'.obras[|d.obras|])
  {
    var o := NuevaObra(f, r, Porcentaje(f.porcentajeAvance).value);
    var d' := d.(obras := d.obras + [o]);
    NuevaObraInsertada(d, f, r);
    InsertarValida(d, f, r, Porcentaje(f.porcentajeAvance).value);
    assert d'.obras[|d.obras|] == o;
  }

  /** Appending the record built from right references keeps the database valid. */
  lemma InsertarValida(d: Base, f: Fila, r: Refs, pct: real)
    requires d.Valid() && f.nombre.Some? && RefsFila(d, f, r)
    ensures var d' := d.(obras := d.obras + [NuevaObra(f, r, pct)]); d'.Valid() && Crece(d, d')
  {
    var o := NuevaObra(f, r, pct);
    var c := r.c;
    assert Resuelto(d, (Entorno, f.entorno), c.entorno);
    assert Resuelto(d, (Etapa, f.etapa), c.etapa);
    assert Resuelto(d, (TipoObra, Some(OrDefault(f.tipo, NoEspecificado))), c.tipo);
    assert Resuelto(d, (AreaResponsable, f.areaResponsable), c.area);
    assert Resuelto(d, (TipoContratacion, Some(OrDefault(f.contratacionTipo, NoEspecificado))), c.contratacion);
    assert d.RefsOk(o);
    ConObrasValida(d, d.obras + [o]);
  }

  // ---------------------------------------------------------------------
  // The row loop
  // ---------------------------------------------------------------------

  /**
   * The row loop of `cargar_datos` (lines 215-274): the rows are tried in
   * order, each on the database the earlier ones left; the number is
   * `total_insertadas`.
   */
  function Cargar(db: Base, filas: seq<Fila>): (Base, nat)
    decreases |filas|
  {
    if filas == [] then (db, 0)
    else
      var primera := ConFila(db, filas[0]);
      var resto := Cargar(primera.0, filas[1..]);
      (resto.0, resto.1 + if primera.1 then 1 else 0)
  }

  /** `cargar_datos(df)`: a missing DataFrame inserts nothing. */
  function CargarDatos(db: Base, df: Option<seq<Fila>>): (Base, nat)
  {
    match df
    case None => (db, 0)
    case Some(filas) => Cargar(db, filas)
  }

  /** How many of the rows are valid. */
  function CuantasValidas(filas: seq<Fila>): nat {
    if filas == [] then 0 else (if FilaValida(filas[0]) then 1 else 0) + CuantasValidas(filas[1..])
  }

  /** The scalar columns of the valid rows, in order. */
  function DatosValidos(filas: seq<Fila>): seq<RegistroObra> {
    if filas == [] then []
    else (if FilaValida(filas[0]) then [Datos(filas[0])] else []) + DatosValidos(filas[1..])
  }

  /** Clearing the references of each record. */
  function SinRefsTodas(s: seq<RegistroObra>): (r: seq<RegistroObra>)
    ensures |r| == |s| && forall i :: 0 <= i < |s| ==> r[i] == SinRefs(s[i])
  {
    if s == [] then [] else [SinRefs(s[0])] + SinRefsTodas(s[1..])
  }

  lemma {:induction false} SinRefsConcat(u: seq<RegistroObra>, v: seq<RegistroObra>)
    ensures SinRefsTodas(u + v) == SinRefsTodas(u) + SinRefsTodas(v)
  {
    var a, b := SinRefsTodas(u + v), SinRefsTodas(u) + SinRefsTodas(v);
    assert |a| == |b|;
    forall i | 0 <= i < |a| ensures a[i] == b[i] {
      if i < |u| {
        assert (u + v)[i] == u[i];
      } else {
        assert (u + v)[i] == v[i - |u|];
      }
    }
  }

  /**
   * The loader keeps the database valid and only grows it: the rows that
   * were there before, in every table, stay as they were. The count it
   * returns is the number of records it inserted, which is the number of
   * valid rows, and the records inserted carry, in order, the scalar
   * columns of the valid rows.
   */
  lemma {:induction false} CargarSpec(db: Base, filas: seq<Fila>)
    requires db.Valid()
    ensures var r := Cargar(db, filas);
      && r.0.Valid() && Crece(db, r.0)
      && r.1 == |r.0.obras| - |db.obras| && r.1 == CuantasValidas(filas)
      && SinRefsTodas(r.0.obras[|db.obras|..]) == DatosValidos(filas)
    decreases |filas|
  {
    if filas != [] {
      var f := filas[0];
      ConFilaSpec(db, f);
      var primera := ConFila(db, f);
      var d1 := primera.0;
      CargarSpec(d1, filas[1..]);
      var resto := Cargar(d1, filas[1..]);
      var d := resto.0;
      CreceTrans(db, d1, d);
      CargarPaso(db, filas);
      NuevosConcat(db.obras, d1.obras, d.obras, primera.1);
    } else {
      assert db.obras[|db.obras|..] == [];
    }
  }

  /** The first row, then the rest: how the count and the scalar columns of the valid rows split. */
  lemma CargarPaso(db: Base, filas: seq<Fila>)
    requires filas != []
    ensures var primera := ConFila(db, filas[0]);
      && Cargar(db, filas) == (Cargar(primera.0, filas[1..]).0, Cargar(primera.0, filas[1..]).1 + if primera.1 then 1 else 0)
      && CuantasValidas(filas) == CuantasValidas(filas[1..]) + (if FilaValida(filas[0]) then 1 else 0)
      && DatosValidos(filas) == (if FilaValida(filas[0]) then [Datos(filas[0])] else []) + DatosValidos(filas[1..])
  {
  }

  /** The records added over two steps are those of the first step, then those of the second. */
  lemma NuevosConcat(s0: seq<RegistroObra>, s1: seq<RegistroObra>, s2: seq<RegistroObra>, uno: bool)
    requires s0 <= s1 <= s2 && |s1| == |s0| + (if uno then 1 else 0)
    ensures SinRefsTodas(s2[|s0|..]) == (if uno then [SinRefs(s1[|s0|])] else []) + SinRefsTodas(s2[|s1|..])
  {
    if uno {
      assert s2[|s0|..] == [s1[|s0|]] + s2[|s1|..];
      SinRefsConcat([s1[|s0|]], s2[|s1|..]);
    } else {
      assert s2[|s0|..] == s2[|s1|..];
    }
  }

  /**
   * A row that fails leaves the Obras table as it was, and the rows loaded
   * before it stay loaded: the count grows by one for each valid row only.
   */
  lemma CargarFilaInvalida(db: Base, filas: seq<Fila>, f: Fila)
    requires db.Valid() && !FilaValida(f)
    ensures Cargar(db, [f] + filas).1 == Cargar(ConFila(db, f).0, filas).1
    ensures ConFila(db, f).0.obras == db.obras
  {
    ConFilaSpec(db, f);
    assert ([f] + filas)[1..] == filas;
  }

  /**
   * A blank type of work, of contract and of funding all resolve to the
   * row "No especificado", a blank company to "Empresa Desconocida", and a
   * blank headcount to 0. A blank cuit becomes "00-00000000-0" only in a
   * company the row creates, which `ConFilaCuit` states.
   */
  lemma ValoresPorDefecto(d: Base, f: Fila, o: RegistroObra)
    requires FilaValida(f) && Insertada(d, f, o)
    requires Vacia(f.tipo) && Vacia(f.contratacionTipo) && Vacia(f.financiamiento) && Vacia(f.empresa) && Vacia(f.manoObra)
    ensures d.Tabla(TipoObra)[o.tipoObra.value - 1].texto == NoEspecificado
    ensures d.Tabla(TipoContratacion)[o.tipoContratacion.value - 1].texto == NoEspecificado
    ensures d.Tabla(Financiamiento)[o.financiamiento.value - 1].texto == NoEspecificado
    ensures d.empresas[o.empresaLicitadora.value - 1].nombre == EmpresaDesconocida
    ensures o.manoDeObra == Some(0)
  {
    assert SinRefs(o).manoDeObra == Datos(f).manoDeObra;
  }

  // ---------------------------------------------------------------------
  // The loader on the live database
  // ---------------------------------------------------------------------

  /** A run of lookups' outcome with the ids `h` found before it put in front. */
  function Prefijar(h: seq<nat>, r: (Base, Option<seq<nat>>)): (Base, Option<seq<nat>>) {
    (r.0, if r.1.None? then None else Some(h + r.1.value))
  }

  /** One more lookup done: its id moves to the ids found before. */
  lemma PrefijarPaso(db: Base, pasos: seq<(Catalogo, Option<string>)>, h: seq<nat>)
    requires pasos != [] && pasos[0].1.Some?
    ensures var g := db.GetOrCreate(pasos[0].0, pasos[0].1.value);
      Prefijar(h, Resolver(db, pasos)) == Prefijar(h + [g.1], Resolver(g.0, pasos[1..]))
  {
    var g := db.GetOrCreate(pasos[0].0, pasos[0].1.value);
    var r := Resolver(g.0, pasos[1..]);
    ResolverUnPaso(db, pasos);
    if r.1.Some? {
      assert h + ([g.1] + r.1.value) == (h + [g.1]) + r.1.value;
    }
  }

  /**
   * The run from lookup `i` on, with the ids `h` found before it: it fails
   * at once on a missing key, and otherwise moves one id to `h`.
   */
  lemma ResolverDesde(db: Base, pasos: seq<(Catalogo, Option<string>)>, i: nat, h: seq<nat>)
    requires i < |pasos|
    ensures pasos[i].1.None? ==> Prefijar(h, Resolver(db, pasos[i..])) == (db, None)
    ensures pasos[i].1.Some? ==>
      var g := db.GetOrCreate(pasos[i].0, pasos[i].1.value);
      Prefijar(h, Resolver(db, pasos[i..])) == Prefijar(h + [g.1], Resolver(g.0, pasos[i + 1..]))
  {
    assert pasos[i..][0] == pasos[i] && pasos[i..][1..] == pasos[i + 1..];
    if pasos[i].1.Some? {
      PrefijarPaso(db, pasos[i..], h);
    }
  }

  /** A run of lookups on the live database. */
  method ResolverEn(store: Store, pasos: seq<(Catalogo, Option<string>)>) returns (ids: Option<seq<nat>>)
    modifies store
    ensures (store.Estado(), ids) == Resolver(old(store.Estado()), pasos)
  {
    ghost var db0 := store.Estado();
    var hechos: seq<nat> := [];
    var i := 0;
    var falta := false;
    assert pasos[0..] == pasos;
    assert Prefijar([], Resolver(db0, pasos)) == Resolver(db0, pasos) by {
      var r := Resolver(db0, pasos);
      if r.1.Some? { assert [] + r.1.value == r.1.value; }
    }
    while i < |pasos| && !falta
      invariant 0 <= i <= |pasos| && |hechos| == i
      invariant !falta ==> Resolver(db0, pasos) == Prefijar(hechos, Resolver(store.Estado(), pasos[i..]))
      invariant falta ==> Resolver(db0, pasos) == (store.Estado(), None)
      decreases |pasos| - i, if falta then 0 else 1
    {
      ResolverDesde(store.Estado(), pasos, i, hechos);
      if pasos[i].1.None? {
        falta := true;
      } else {
        var id := store.GetOrCreate(pasos[i].0, pasos[i].1.value);
        hechos := hechos + [id];
        i := i + 1;
      }
    }
    if falta {
      ids := None;
    } else {
      assert pasos[i..] == [];
      assert hechos + [] == hechos;
      ids := Some(hechos);
    }
  }

  /** Lines 219-240 on the live database: the references of a row, or None when a lookup raises. */
  method ReferenciasEn(store: Store, f: Fila) returns (r: Option<Refs>)
    modifies store
    ensures (store.Estado(), r) == Referencias(old(store.Estado()), f)
  {
    ghost var db0 := store.Estado();
    var ids := ResolverEn(store, Consultas(f));
    if ids.None? || f.barrio.None? {
      return None;
    }
    var v := ids.value;
    var c := Clasificacion(v[0], v[1], v[2], v[3], v[4], v[5]);
    assert Clasificar(db0, f) == (store.Estado(), Some(c));
    ghost var d1 := store.Estado();
    var b := store.GetOrCreateBarrio(f.barrio.value, c.comuna);
    var fin := store.GetOrCreate(Financiamiento, OrDefault(f.financiamiento, NoEspecificado));
    var emp := store.GetOrCreateEmpresa(OrDefault(f.empresa, EmpresaDesconocida), OrDefault(f.cuitContratista, CuitDesconocido));
    assert (store.Estado(), Refs(c, b, fin, emp)) == Completar(d1, f, c);
    r := Some(Refs(c, b, fin, emp));
  }

  /** One iteration of the row loop on the live database. */
  method CargarFila(store: Store, f: Fila) returns (ok: bool)
    modifies store
    ensures (store.Estado(), ok) == ConFila(old(store.Estado()), f)
  {
    ghost var res := ConFila(store.Estado(), f);
    var r := ReferenciasEn(store, f);
    var pct := Porcentaje(f.porcentajeAvance);
    if r.None? || pct.None? || f.nombre.None? {
      assert (store.Estado(), false) == res;
      return false;
    }
    var _ := store.InsertarObra(NuevaObra(f, r.value, pct.value));
    ok := true;
    assert (store.Estado(), ok) == res;
  }

  /**
   * `ControlObra.cargar_datos(df)` on the live database: returns
   * `total_insertadas`, the number of rows inserted.
   */
  method CargarDatosEn(store: Store, df: Option<seq<Fila>>) returns (total: nat)
    modifies store
    ensures (store.Estado(), total) == CargarDatos(old(store.Estado()), df)
  {
    ghost var db0 := store.Estado();
    if df.None? {
      return 0;
    }
    var filas := df.value;
    total := 0;
    var i := 0;
    assert filas[0..] == filas;
    while i < |filas|
      invariant 0 <= i <= |filas|
      invariant Cargar(db0, filas).0 == Cargar(store.Estado(), filas[i..]).0
      invariant Cargar(db0, filas).1 == Cargar(store.Estado(), filas[i..]).1 + total
    {
      assert filas[i..][0] == filas[i] && filas[i..][1..] == filas[i + 1..];
      CargarPaso(store.Estado(), filas[i..]);
      var ok := CargarFila(store, filas[i]);
      if ok {
        total := total + 1;
      }
      i := i + 1;
    }
    assert filas[i..] == [];
  }
}
