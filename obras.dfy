/**
 * The life cycle of a work record (the `Obra` methods of modelo_orm.py).
 * Each transition overwrites a fixed group of fields of the in-memory
 * object and saves it over its row; the stage-setting ones get-or-create a
 * named Etapa. No transition looks at the current stage, so any order is
 * allowed. The value each transition asks for at the console is a
 * parameter: a sequence of answers read as `Pedidos.Pedir` reads them.
 *
 * Each transition is stated twice: as a step function on the database
 * value (`Paso`), about which the lemmas speak, and as a method of the
 * `Obra` class on the live `Store`, proved equal to that step.
 */
module Obras {
  import opened Wrappers
  import opened Texto
  import opened Tablas
  import opened Pedidos

  /** `obra.save()` on a saved object: row `id` of Obras now holds `o`. */
  function Guardado(db: Base, id: nat, o: RegistroObra): Base
    requires 1 <= id <= |db.obras|
  {
    db.(obras := db.obras[id - 1 := o])
  }

  /** The outcome of one transition: the database, the object's fields, and whether it completed. */
  datatype Paso = Paso(db: Base, obra: RegistroObra, completo: bool)

  /** The groups of fields the transitions write. */
  datatype Grupo = DeEtapa | DeContratacion | DeAdjudicacion | DeInicio | DeAvance | DePlazo | DeManoDeObra

  /**
   * `o` with the fields of group `g` cleared: two records have the same
   * image exactly when they differ at most in the fields of `g`.
   */
  function Olvidar(o: RegistroObra, g: Grupo): RegistroObra {
    match g
    case DeEtapa => o.(etapa := None)
    case DeContratacion => o.(tipoContratacion := None, montoContrato := None, nroContratacion := None)
    case DeAdjudicacion => o.(empresaLicitadora := None, expediente := None)
    case DeInicio => o.(destacada := None, fechaInicio := None, fechaFinInicial := None, financiamiento := None, manoDeObra := None)
    case DeAvance => o.(porcentajeAvance := None)
    case DePlazo => o.(plazo := None)
    case DeManoDeObra => o.(manoDeObra := None)
  }

  /**
   * What the Monto_contrato column (a FloatField) keeps of the text
   * `iniciar_contratacion` assigns: the number, when the text reads as one,
   * and otherwise the text itself.
   */
  function Adaptar(texto: string): (m: Monto)
    ensures m.Numero? <==> ParseFloat(texto).Some?
    ensures m.Numero? ==> ParseFloat(texto) == Some(m.valor)
    ensures m.Crudo? ==> m.texto == texto
  {
    match ParseFloat(texto)
    case Some(v) => Numero(v)
    case None => Crudo(texto)
  }

  /** `Empresa_licitadora.get_or_none(Empresa == nombre)`, as the id of the company found. */
  function IdEmpresa(db: Base, nombre: string): (r: Option<nat>)
    ensures r.None? <==> forall i :: 0 <= i < |db.empresas| ==> db.empresas[i].nombre != nombre
    ensures r.Some? ==> exists i :: 0 <= i < |db.empresas| && db.empresas[i].nombre == nombre && db.empresas[i].id == r.value
  {
    match db.BuscarEmpresa(nombre)
    case Some(i) => Some(db.empresas[i].id)
    case None => None
  }

  /**
   * The company `adjudicar_obra` settles on: the first name typed that,
   * stripped, names an existing company. None when no name does.
   */
  function PrimeraEmpresa(db: Base, nombres: seq<string>): (r: Option<nat>)
    ensures r.None? <==> forall j :: 0 <= j < |nombres| ==> IdEmpresa(db, Strip(nombres[j])).None?
    ensures r.Some? ==> exists j :: 0 <= j < |nombres| && IdEmpresa(db, Strip(nombres[j])) == r
  {
    if nombres == [] then None
    else match IdEmpresa(db, Strip(nombres[0]))
      case Some(e) => Some(e)
      case None =>
        var r := PrimeraEmpresa(db, nombres[1..]);
        assert forall j :: 1 <= j < |nombres| ==> nombres[1..][j - 1] == nombres[j];
        r
  }

  /** `pedir_fecha` reads a date that is already parsed: the answer is the parse result. */
  function LeerFecha(f: Option<Fecha>): Option<Fecha> {
    f
  }

  /** `nuevo_proyecto`, `finalizar_obra`, `rescindir_obra`: the stage becomes the Etapa row named `texto`. */
  function ConEtapa(db: Base, id: nat, o: RegistroObra, texto: string): Paso
    requires 1 <= id <= |db.obras|
  {
    var res := db.GetOrCreate(Etapa, texto); var d := res.0; var e := res.1;
    var o' := o.(etapa := Some(e));
    Paso(Guardado(d, id, o'), o', true)
  }

  /** `iniciar_contratacion`: the contracting type (a dialog on Tipo_contratacion), the amount and the number. */
  function IniciarContratacion(db: Base, id: nat, o: RegistroObra, intentos: seq<Intento>, monto: string, nro: string): Paso
    requires 1 <= id <= |db.obras|
  {
    var res := Interactivo(db, TipoContratacion, intentos); var d := res.0; var t := res.1;
    if t.None? then Paso(d, o, false)
    else
      var o' := o.(tipoContratacion := t, montoContrato := Some(Adaptar(Strip(monto))), nroContratacion := Some(Strip(nro)));
      Paso(Guardado(d, id, o'), o', true)
  }

  /** `adjudicar_obra`: the first name typed that names an existing company, then the file number. */
  function AdjudicarObra(db: Base, id: nat, o: RegistroObra, nombres: seq<string>, expediente: string): Paso
    requires 1 <= id <= |db.obras|
  {
    match PrimeraEmpresa(db, nombres)
    case None => Paso(db, o, false)
    case Some(e) =>
      var o' := o.(empresaLicitadora := Some(e), expediente := Some(Strip(expediente)));
      Paso(Guardado(db, id, o'), o', true)
  }

  /**
   * `iniciar_obra`: whether it is highlighted, the two dates, the funding
   * (a dialog on Financiamiento) and the headcount, asked in that order.
   */
  function IniciarObra(db: Base, id: nat, o: RegistroObra, destacada: seq<string>, inicios: seq<Option<Fecha>>,
                       fines: seq<Option<Fecha>>, intentos: seq<Intento>, personas: seq<string>): Paso
    requires 1 <= id <= |db.obras|
  {
    var dest := Leido(destacada, SiNo);
    var fi := Leido(inicios, LeerFecha);
    var ff := Leido(fines, LeerFecha);
    if dest.None? || fi.None? || ff.None? then Paso(db, o, false)
    else
      var res := Interactivo(db, Financiamiento, intentos); var d := res.0; var f := res.1;
      var m := Leido(personas, ParseInt);
      if f.None? || m.None? then Paso(d, o, false)
      else
        var o' := o.(destacada := dest, fechaInicio := fi, fechaFinInicial := ff, financiamiento := f, manoDeObra := m);
        Paso(Guardado(d, id, o'), o', true)
  }

  /** `actualizar_porcentaje_avance`: the progress becomes the number typed. */
  function ActualizarPorcentajeAvance(db: Base, id: nat, o: RegistroObra, respuestas: seq<string>): Paso
    requires 1 <= id <= |db.obras|
  {
    match Leido(respuestas, ParseFloat)
    case None => Paso(db, o, false)
    case Some(v) =>
      var o' := o.(porcentajeAvance := Some(v));
      Paso(Guardado(db, id, o'), o', true)
  }

  /** `incrementar_plazo`: the term becomes the number typed (it is not added to the old one). */
  function IncrementarPlazo(db: Base, id: nat, o: RegistroObra, respuestas: seq<string>): Paso
    requires 1 <= id <= |db.obras|
  {
    match Leido(respuestas, ParseFloat)
    case None => Paso(db, o, false)
    case Some(v) =>
      var o' := o.(plazo := Some(v));
      Paso(Guardado(db, id, o'), o', true)
  }

  /** `incrementar_mano_obra`: the headcount becomes the integer typed (it is not added to the old one). */
  function IncrementarManoObra(db: Base, id: nat, o: RegistroObra, respuestas: seq<string>): Paso
    requires 1 <= id <= |db.obras|
  {
    match Leido(respuestas, ParseInt)
    case None => Paso(db, o, false)
    case Some(v) =>
      var o' := o.(manoDeObra := Some(v));
      Paso(Guardado(db, id, o'), o', true)
  }

  /**
   * What every transition keeps: the database stays valid and only grows,
   * the object's references stay valid, and the Obras table changes only
   * in row `id`, which holds the object when the transition completed.
   */
  predicate Preserva(db: Base, id: nat, p: Paso)
    requires 1 <= id <= |db.obras|
  {
    && p.db.Valid() && Crece(db.(obras := p.db.obras), p.db) && p.db.RefsOk(p.obra)
    && p.db.obras == (if p.completo then db.obras[id - 1 := p.obra] else db.obras)
  }

  /** Writing the stage changes nothing outside the stage group. */
  lemma OlvidaEtapa(o: RegistroObra, e: Option<nat>)
    ensures Olvidar(o.(etapa := e), DeEtapa) == Olvidar(o, DeEtapa)
  {
  }

  /** Saving an object whose references are valid keeps the database valid. */
  lemma GuardadoValido(db: Base, id: nat, o: RegistroObra)
    requires db.Valid() && 1 <= id <= |db.obras| && db.RefsOk(o)
    ensures Guardado(db, id, o).Valid()
  {
    ConObrasValida(db, db.obras[id - 1 := o]);
  }

  /**
   * A stage-setting transition always completes. It changes only the
   * record's stage, which then names an Etapa row holding exactly `texto`.
   * It changes no table but Etapa, where it adds a row only when no row
   * holds `texto` yet.
   */
  lemma ConEtapaSpec(db: Base, id: nat, o: RegistroObra, texto: string)
    requires db.Valid() && 1 <= id <= |db.obras| && db.RefsOk(o)
    ensures var p := ConEtapa(db, id, o, texto);
      && Preserva(db, id, p) && p.completo
      && Olvidar(p.obra, DeEtapa) == Olvidar(o, DeEtapa)
      && p.obra.etapa.Some? && 1 <= p.obra.etapa.value <= |p.db.Tabla(Etapa)|
      && p.db.Tabla(Etapa)[p.obra.etapa.value - 1].texto == texto
      && p.db.(obras := db.obras) == db.GetOrCreate(Etapa, texto).0
  {
    GetOrCreateSpec(db, Etapa, texto);
    var g := db.GetOrCreate(Etapa, texto);
    var o' := o.(etapa := Some(g.1));
    RefsCrecen(db, g.0, o);
    PasoGuardado(db, g.0, id, o');
    OlvidaEtapa(o, Some(g.1));
  }

  /** Setting the same stage twice is the same as once: in particular the Etapa table does not grow again. */
  lemma ConEtapaIdempotente(db: Base, id: nat, o: RegistroObra, texto: string)
    requires 1 <= id <= |db.obras|
    ensures var p := ConEtapa(db, id, o, texto);
      ConEtapa(p.db, id, p.obra, texto) == p
  {
    var t := db.Tabla(Etapa);
    var p := ConEtapa(db, id, o, texto);
    var e := p.obra.etapa.value;
    var t1 := p.db.Tabla(Etapa);
    match Buscar(t, texto)
    case Some(i) =>
      assert t1 == t;
      assert p.db.GetOrCreate(Etapa, texto) == (p.db, e);
    case None =>
      assert t1 == t + [Entrada(|t| + 1, texto)];
      assert t1[..|t1| - 1] == t;
      assert Buscar(t1, texto) == Some(|t|);
      assert p.db.GetOrCreate(Etapa, texto) == (p.db, e);
  }

  /**
   * `nueva_obra` finishes with `finalizar_obra` and then `rescindir_obra`:
   * no transition checks the stage, so the record ends up rescinded.
   */
  lemma RescisionTrasFinalizar(db: Base, id: nat, o: RegistroObra)
    requires db.Valid() && 1 <= id <= |db.obras| && db.RefsOk(o)
    ensures var p1 := ConEtapa(db, id, o, "Finalizada");
      var p2 := ConEtapa(p1.db, id, p1.obra, "Rescisión");
      && p2.obra.etapa.Some? && 1 <= p2.obra.etapa.value <= |p2.db.Tabla(Etapa)|
      && p2.db.Tabla(Etapa)[p2.obra.etapa.value - 1].texto == "Rescisión"
      && p2.db.obras[id - 1] == p2.obra
  {
    ConEtapaSpec(db, id, o, "Finalizada");
    var p1 := ConEtapa(db, id, o, "Finalizada");
    ConEtapaSpec(p1.db, id, p1.obra, "Rescisión");
  }

  /** A transition that completes saves the object over its row. */
  lemma PasoGuardado(db: Base, d: Base, id: nat, o: RegistroObra)
    requires db.Valid() && 1 <= id <= |db.obras|
    requires d.Valid() && Crece(db, d) && d.obras == db.obras && d.RefsOk(o)
    ensures Preserva(db, id, Paso(Guardado(d, id, o), o, true))
    ensures Guardado(d, id, o).(obras := db.obras) == d
  {
    GuardadoValido(d, id, o);
  }

  /** A transition that does not complete leaves the object and the Obras table as they were. */
  lemma PasoFallido(db: Base, d: Base, id: nat, o: RegistroObra)
    requires 1 <= id <= |db.obras|
    requires d.Valid() && Crece(db, d) && d.obras == db.obras && d.RefsOk(o)
    ensures Preserva(db, id, Paso(d, o, false))
  {
  }

  lemma OlvidaContratacion(o: RegistroObra, t: Option<nat>, m: Option<Monto>, n: Option<string>)
    ensures Olvidar(o.(tipoContratacion := t, montoContrato := m, nroContratacion := n), DeContratacion) == Olvidar(o, DeContratacion)
  {
  }

  lemma OlvidaAdjudicacion(o: RegistroObra, e: Option<nat>, x: Option<string>)
    ensures Olvidar(o.(empresaLicitadora := e, expediente := x), DeAdjudicacion) == Olvidar(o, DeAdjudicacion)
  {
  }

  lemma OlvidaInicio(o: RegistroObra, d: Option<string>, fi: Option<Fecha>, ff: Option<Fecha>, f: Option<nat>, m: Option<int>)
    ensures Olvidar(o.(destacada := d, fechaInicio := fi, fechaFinInicial := ff, financiamiento := f, manoDeObra := m), DeInicio)
      == Olvidar(o, DeInicio)
  {
  }

  lemma OlvidaAvance(o: RegistroObra, v: Option<real>)
    ensures Olvidar(o.(porcentajeAvance := v), DeAvance) == Olvidar(o, DeAvance)
  {
  }

  lemma OlvidaPlazo(o: RegistroObra, v: Option<real>)
    ensures Olvidar(o.(plazo := v), DePlazo) == Olvidar(o, DePlazo)
  {
  }

  lemma OlvidaManoDeObra(o: RegistroObra, v: Option<int>)
    ensures Olvidar(o.(manoDeObra := v), DeManoDeObra) == Olvidar(o, DeManoDeObra)
  {
  }

  /** `iniciar_contratacion` keeps the database valid and may add a row only to Tipo_contratacion. */
  lemma IniciarContratacionValida(db: Base, id: nat, o: RegistroObra, intentos: seq<Intento>, monto: string, nro: string)
    requires db.Valid() && 1 <= id <= |db.obras| && db.RefsOk(o)
    ensures var p := IniciarContratacion(db, id, o, intentos, monto, nro);
      Preserva(db, id, p) && SoloTabla(db, p.db.(obras := db.obras), TipoContratacion)
  {
    InteractivoValido(db, TipoContratacion, intentos);
    var res := Interactivo(db, TipoContratacion, intentos); var d := res.0; var t := res.1;
    if t.Some? {
      RefsCrecen(db, d, o);
      PasoGuardado(db, d, id, o.(tipoContratacion := t, montoContrato := Some(Adaptar(Strip(monto))), nroContratacion := Some(Strip(nro))));
    } else {
      InteractivoSpec(db, TipoContratacion, intentos);
      SoloTablaRefl(db, TipoContratacion);
      PasoFallido(db, db, id, o);
    }
  }

  /**
   * `iniciar_contratacion` changes only the three contracting fields. When
   * it completes, the type is a row holding one of the values typed, and
   * the amount and the number are the texts typed, stripped (the amount
   * kept as a number when it reads as one). It fails only when no round of
   * the type dialog yields a row, and then changes nothing.
   */
  lemma IniciarContratacionSpec(db: Base, id: nat, o: RegistroObra, intentos: seq<Intento>, monto: string, nro: string)
    requires CatalogoValido(db.Tabla(TipoContratacion)) && 1 <= id <= |db.obras|
    ensures var p := IniciarContratacion(db, id, o, intentos, monto, nro);
      && Olvidar(p.obra, DeContratacion) == Olvidar(o, DeContratacion)
      && (p.completo ==>
            && p.obra.montoContrato == Some(Adaptar(Strip(monto))) && p.obra.nroContratacion == Some(Strip(nro))
            && p.obra.tipoContratacion.Some? && 1 <= p.obra.tipoContratacion.value <= |p.db.Tabla(TipoContratacion)|
            && exists j :: 0 <= j < |intentos|
                 && p.db.Tabla(TipoContratacion)[p.obra.tipoContratacion.value - 1].texto == Strip(intentos[j].valor))
      && (!p.completo ==> (p.db == db && p.obra == o
            && forall j :: 0 <= j < |intentos| ==> Ronda(db, TipoContratacion, intentos[j]).1.None?))
  {
    InteractivoTexto(db, TipoContratacion, intentos);
    var res := Interactivo(db, TipoContratacion, intentos); var d := res.0; var t := res.1;
    if t.Some? {
      OlvidaContratacion(o, t, Some(Adaptar(Strip(monto))), Some(Strip(nro)));
    } else {
      InteractivoSpec(db, TipoContratacion, intentos);
      InteractivoNinguna(db, TipoContratacion, intentos);
    }
  }

  /** `adjudicar_obra` keeps the database valid and never adds or changes a company, or any other table. */
  lemma AdjudicarObraValida(db: Base, id: nat, o: RegistroObra, nombres: seq<string>, expediente: string)
    requires db.Valid() && 1 <= id <= |db.obras| && db.RefsOk(o)
    ensures var p := AdjudicarObra(db, id, o, nombres, expediente);
      Preserva(db, id, p) && p.db.(obras := db.obras) == db
  {
    match PrimeraEmpresa(db, nombres)
    case Some(e) =>
      AdjudicarObraSpec(db, id, o, nombres, expediente);
      PasoGuardado(db, db, id, o.(empresaLicitadora := Some(e), expediente := Some(Strip(expediente))));
    case None =>
      PasoFallido(db, db, id, o);
  }

  /**
   * `adjudicar_obra` changes only the company and file-number fields. When
   * it completes, the record points at a company named by one of the names
   * typed, stripped; otherwise nothing changes.
   */
  lemma AdjudicarObraSpec(db: Base, id: nat, o: RegistroObra, nombres: seq<string>, expediente: string)
    requires 1 <= id <= |db.obras|
    requires forall i :: 0 <= i < |db.empresas| ==> db.empresas[i].id == i + 1
    ensures var p := AdjudicarObra(db, id, o, nombres, expediente);
      && Olvidar(p.obra, DeAdjudicacion) == Olvidar(o, DeAdjudicacion)
      && (p.completo ==>
            && p.obra.expediente == Some(Strip(expediente))
            && p.obra.empresaLicitadora.Some? && 1 <= p.obra.empresaLicitadora.value <= |db.empresas|
            && Tecleado(db.empresas[p.obra.empresaLicitadora.value - 1].nombre, nombres))
      && (!p.completo ==> p.obra == o && p.db == db)
  {
    match PrimeraEmpresa(db, nombres)
    case Some(e) =>
      var j := PrimeraEmpresaNombre(db, nombres);
      TecleadoEn(db.empresas[e - 1].nombre, nombres, j);
      OlvidaAdjudicacion(o, Some(e), Some(Strip(expediente)));
    case None =>
  }

  /** `nombre` is one of the names typed, stripped. */
  predicate Tecleado(nombre: string, nombres: seq<string>) {
    exists j :: 0 <= j < |nombres| && nombre == Strip(nombres[j])
  }

  /**
   * With ids numbered from 1, the company chosen is the row of that id,
   * named by the `j`-th name typed, stripped, for the `j` returned.
   */
  lemma PrimeraEmpresaNombre(db: Base, nombres: seq<string>) returns (j: nat)
    requires forall i :: 0 <= i < |db.empresas| ==> db.empresas[i].id == i + 1
    ensures var r := PrimeraEmpresa(db, nombres);
      r.Some? ==> 1 <= r.value <= |db.empresas| && j < |nombres| && db.empresas[r.value - 1].nombre == Strip(nombres[j])
  {
    j := PrimeraEmpresaIndice(db, nombres);
    var r := PrimeraEmpresa(db, nombres);
    if r.Some? {
      IdEmpresaFila(db, Strip(nombres[j]), r.value);
    }
  }

  /** The company chosen is the one the lookup finds for the `j`-th name typed, stripped. */
  lemma PrimeraEmpresaIndice(db: Base, nombres: seq<string>) returns (j: nat)
    ensures var r := PrimeraEmpresa(db, nombres);
      r.Some? ==> j < |nombres| && IdEmpresa(db, Strip(nombres[j])) == r
  {
    var r := PrimeraEmpresa(db, nombres);
    if r.Some? {
      j :| 0 <= j < |nombres| && IdEmpresa(db, Strip(nombres[j])) == r;
    } else {
      j := 0;
    }
  }

  /** With ids numbered from 1, the id `e` the lookup finds is that of a row holding the name. */
  lemma IdEmpresaFila(db: Base, nombre: string, e: nat)
    requires forall i :: 0 <= i < |db.empresas| ==> db.empresas[i].id == i + 1
    requires IdEmpresa(db, nombre) == Some(e)
    ensures 1 <= e <= |db.empresas| && db.empresas[e - 1].nombre == nombre
  {
    var i :| 0 <= i < |db.empresas| && db.empresas[i].nombre == nombre && db.empresas[i].id == e;
    assert e == i + 1;
  }

  /** The `j`-th name typed, stripped, is one of the names typed. */
  lemma TecleadoEn(nombre: string, nombres: seq<string>, j: nat)
    requires j < |nombres| && nombre == Strip(nombres[j])
    ensures Tecleado(nombre, nombres)
  {
  }

  /** `adjudicar_obra` completes exactly when one of the names typed, stripped, names an existing company. */
  lemma AdjudicarObraCompleta(db: Base, id: nat, o: RegistroObra, nombres: seq<string>, expediente: string)
    requires 1 <= id <= |db.obras|
    ensures AdjudicarObra(db, id, o, nombres, expediente).completo
        <==> exists j :: 0 <= j < |nombres| && IdEmpresa(db, Strip(nombres[j])).Some?
  {
    if PrimeraEmpresa(db, nombres).None? {
      assert forall j :: 0 <= j < |nombres| ==> IdEmpresa(db, Strip(nombres[j])).None?;
    }
  }

  /**
   * `iniciar_obra` keeps the database valid and may add a row only to
   * Financiamiento (the funding dialog may add it even when the headcount
   * is never given).
   */
  lemma IniciarObraValida(db: Base, id: nat, o: RegistroObra, destacada: seq<string>, inicios: seq<Option<Fecha>>,
                          fines: seq<Option<Fecha>>, intentos: seq<Intento>, personas: seq<string>)
    requires db.Valid() && 1 <= id <= |db.obras| && db.RefsOk(o)
    ensures var p := IniciarObra(db, id, o, destacada, inicios, fines, intentos, personas);
      Preserva(db, id, p) && SoloTabla(db, p.db.(obras := db.obras), Financiamiento)
  {
    var dest := Leido(destacada, SiNo);
    var fi := Leido(inicios, LeerFecha);
    var ff := Leido(fines, LeerFecha);
    if dest.None? || fi.None? || ff.None? {
      SoloTablaRefl(db, Financiamiento);
      PasoFallido(db, db, id, o);
    } else {
      InteractivoValido(db, Financiamiento, intentos);
      var res := Interactivo(db, Financiamiento, intentos); var d := res.0; var f := res.1;
      var m := Leido(personas, ParseInt);
      RefsCrecen(db, d, o);
      if f.None? || m.None? {
        PasoFallido(db, d, id, o);
      } else {
        PasoGuardado(db, d, id, o.(destacada := dest, fechaInicio := fi, fechaFinInicial := ff, financiamiento := f, manoDeObra := m));
      }
    }
  }

  /**
   * `iniciar_obra` changes only its five fields. When it completes, the
   * record is highlighted "SI" or "NO", its dates are dates typed, its
   * funding is a row holding one of the values typed and its headcount is
   * an integer typed; otherwise the record is unchanged.
   */
  lemma IniciarObraSpec(db: Base, id: nat, o: RegistroObra, destacada: seq<string>, inicios: seq<Option<Fecha>>,
                        fines: seq<Option<Fecha>>, intentos: seq<Intento>, personas: seq<string>)
    requires CatalogoValido(db.Tabla(Financiamiento)) && 1 <= id <= |db.obras|
    ensures var p := IniciarObra(db, id, o, destacada, inicios, fines, intentos, personas);
      && Olvidar(p.obra, DeInicio) == Olvidar(o, DeInicio)
      && (p.completo ==>
            && p.obra.destacada.Some? && p.obra.destacada.value in {"SI", "NO"}
            && (exists j :: 0 <= j < |inicios| && inicios[j] == p.obra.fechaInicio) && p.obra.fechaInicio.Some?
            && (exists j :: 0 <= j < |fines| && fines[j] == p.obra.fechaFinInicial) && p.obra.fechaFinInicial.Some?
            && p.obra.financiamiento.Some? && 1 <= p.obra.financiamiento.value <= |p.db.Tabla(Financiamiento)|
            && (exists j :: 0 <= j < |intentos|
                  && p.db.Tabla(Financiamiento)[p.obra.financiamiento.value - 1].texto == Strip(intentos[j].valor))
            && p.obra.manoDeObra.Some? && exists j :: 0 <= j < |personas| && ParseInt(personas[j]) == p.obra.manoDeObra)
      && (!p.completo ==> p.obra == o)
  {
    var dest := Leido(destacada, SiNo);
    var fi := Leido(inicios, LeerFecha);
    var ff := Leido(fines, LeerFecha);
    if !(dest.None? || fi.None? || ff.None?) {
      var res := Interactivo(db, Financiamiento, intentos); var d := res.0; var f := res.1;
      var m := Leido(personas, ParseInt);
      if !(f.None? || m.None?) {
        PedirSiNoCanonico(destacada);
        LeidoAlguno(inicios, LeerFecha);
        LeidoAlguno(fines, LeerFecha);
        LeidoAlguno(personas, ParseInt);
        InteractivoTexto(db, Financiamiento, intentos);
        OlvidaInicio(o, dest, fi, ff, f, m);
      }
    }
  }

  /**
   * `actualizar_porcentaje_avance` changes only the progress field and no
   * table. It completes exactly when some answer reads as a number, and the
   * progress is then a number typed.
   */
  lemma ActualizarPorcentajeAvanceSpec(db: Base, id: nat, o: RegistroObra, respuestas: seq<string>)
    requires db.Valid() && 1 <= id <= |db.obras| && db.RefsOk(o)
    ensures var p := ActualizarPorcentajeAvance(db, id, o, respuestas);
      && Preserva(db, id, p)
      && p.db.(obras := db.obras) == db
      && Olvidar(p.obra, DeAvance) == Olvidar(o, DeAvance)
      && (p.completo <==> exists j :: 0 <= j < |respuestas| && ParseFloat(respuestas[j]).Some?)
      && (p.completo ==> exists j :: 0 <= j < |respuestas| && ParseFloat(respuestas[j]) == p.obra.porcentajeAvance)
      && (!p.completo ==> p.obra == o)
  {
    LeidoNinguno(respuestas, ParseFloat);
    LeidoAlguno(respuestas, ParseFloat);
    match Leido(respuestas, ParseFloat)
    case Some(v) =>
      PasoGuardado(db, db, id, o.(porcentajeAvance := Some(v)));
      OlvidaAvance(o, Some(v));
    case None =>
      PasoFallido(db, db, id, o);
  }

  /**
   * `incrementar_plazo` changes only the term and no table. It completes
   * exactly when some answer reads as a number, and the term is then a
   * number typed, whatever it was before.
   */
  lemma IncrementarPlazoSpec(db: Base, id: nat, o: RegistroObra, respuestas: seq<string>)
    requires db.Valid() && 1 <= id <= |db.obras| && db.RefsOk(o)
    ensures var p := IncrementarPlazo(db, id, o, respuestas);
      && Preserva(db, id, p)
      && p.db.(obras := db.obras) == db
      && Olvidar(p.obra, DePlazo) == Olvidar(o, DePlazo)
      && (p.completo <==> exists j :: 0 <= j < |respuestas| && ParseFloat(respuestas[j]).Some?)
      && (p.completo ==> exists j :: 0 <= j < |respuestas| && ParseFloat(respuestas[j]) == p.obra.plazo)
      && (!p.completo ==> p.obra == o)
  {
    LeidoNinguno(respuestas, ParseFloat);
    LeidoAlguno(respuestas, ParseFloat);
    match Leido(respuestas, ParseFloat)
    case Some(v) =>
      PasoGuardado(db, db, id, o.(plazo := Some(v)));
      OlvidaPlazo(o, Some(v));
    case None =>
      PasoFallido(db, db, id, o);
  }

  /**
   * `incrementar_mano_obra` changes only the headcount and no table. It
   * completes exactly when some answer reads as an integer, and the
   * headcount is then an integer typed, whatever it was before.
   */
  lemma IncrementarManoObraSpec(db: Base, id: nat, o: RegistroObra, respuestas: seq<string>)
    requires db.Valid() && 1 <= id <= |db.obras| && db.RefsOk(o)
    ensures var p := IncrementarManoObra(db, id, o, respuestas);
      && Preserva(db, id, p)
      && p.db.(obras := db.obras) == db
      && Olvidar(p.obra, DeManoDeObra) == Olvidar(o, DeManoDeObra)
      && (p.completo <==> exists j :: 0 <= j < |respuestas| && ParseInt(respuestas[j]).Some?)
      && (p.completo ==> exists j :: 0 <= j < |respuestas| && ParseInt(respuestas[j]) == p.obra.manoDeObra)
      && (!p.completo ==> p.obra == o)
  {
    LeidoNinguno(respuestas, ParseInt);
    LeidoAlguno(respuestas, ParseInt);
    match Leido(respuestas, ParseInt)
    case Some(v) =>
      PasoGuardado(db, db, id, o.(manoDeObra := Some(v)));
      OlvidaManoDeObra(o, Some(v));
    case None =>
      PasoFallido(db, db, id, o);
  }

  /** The term is replaced, not added to: giving the same answers twice is the same as once. */
  lemma IncrementarPlazoIdempotente(db: Base, id: nat, o: RegistroObra, respuestas: seq<string>)
    requires 1 <= id <= |db.obras|
    ensures var p := IncrementarPlazo(db, id, o, respuestas);
      IncrementarPlazo(p.db, id, p.obra, respuestas) == p
  {
    var p := IncrementarPlazo(db, id, o, respuestas);
    if p.completo {
      assert p.obra.(plazo := p.obra.plazo) == p.obra;
      assert p.db.obras[id - 1 := p.obra] == p.db.obras;
    }
  }

  /** The headcount is replaced, not added to: giving the same answers twice is the same as once. */
  lemma IncrementarManoObraIdempotente(db: Base, id: nat, o: RegistroObra, respuestas: seq<string>)
    requires 1 <= id <= |db.obras|
    ensures var p := IncrementarManoObra(db, id, o, respuestas);
      IncrementarManoObra(p.db, id, p.obra, respuestas) == p
  {
    var p := IncrementarManoObra(db, id, o, respuestas);
    if p.completo {
      assert p.obra.(manoDeObra := p.obra.manoDeObra) == p.obra;
      assert p.db.obras[id - 1 := p.obra] == p.db.obras;
    }
  }
}
