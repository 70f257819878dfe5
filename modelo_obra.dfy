/**
 * The `Obra` model object of modelo_orm.py: an in-memory copy of one row
 * of the Obras table whose transition methods overwrite some of its fields
 * and save it back over that row. Each method is proved equal to the step
 * function of the same name in module `Obras`, whose lemmas say what the
 * transition does.
 */
module ModeloObra {
  import opened Wrappers
  import opened Texto
  import opened Tablas
  import opened Pedidos
  import Obras

  class Obra {
    /** Id_Obra: the row of the Obras table this object was read from. */
    var id: nat
    /** The object's column attributes (`self.Etapa`, `self.Plazo`, ...), which the methods overwrite. */
    var registro: RegistroObra

    /** `Obra.get(Id_Obra == id)`: an object holding the values `r` of row `id`. */
    constructor (id: nat, r: RegistroObra)
      ensures this.id == id && registro == r
    {
      this.id := id;
      registro := r;
    }

    /** `self.save()`: writes the object's values over its row. */
    method Guardar(store: Store)
      requires 1 <= id <= |store.obras|
      modifies store
      ensures store.Estado() == Obras.Guardado(old(store.Estado()), id, registro)
    {
      store.Guardar(id, registro);
    }

    /** The stage-setting transitions: the stage becomes the Etapa row named `texto`, created if missing. */
    method PonerEtapa(store: Store, texto: string)
      requires 1 <= id <= |store.obras|
      modifies this, store
      ensures id == old(id)
      ensures Obras.Paso(store.Estado(), registro, true) == Obras.ConEtapa(old(store.Estado()), id, old(registro), texto)
    {
      ghost var p := Obras.ConEtapa(store.Estado(), id, registro, texto);
      var e := store.GetOrCreate(Etapa, texto);
      registro := registro.(etapa := Some(e));
      Guardar(store);
      assert Obras.Paso(store.Estado(), registro, true) == p;
    }

    /** `nuevo_proyecto`. */
    method NuevoProyecto(store: Store)
      requires 1 <= id <= |store.obras|
      modifies this, store
      ensures id == old(id)
      ensures Obras.Paso(store.Estado(), registro, true) == Obras.ConEtapa(old(store.Estado()), id, old(registro), "Proyecto")
    {
      PonerEtapa(store, "Proyecto");
    }

    /** `finalizar_obra`. */
    method FinalizarObra(store: Store)
      requires 1 <= id <= |store.obras|
      modifies this, store
      ensures id == old(id)
      ensures Obras.Paso(store.Estado(), registro, true) == Obras.ConEtapa(old(store.Estado()), id, old(registro), "Finalizada")
    {
      PonerEtapa(store, "Finalizada");
    }

    /** `rescindir_obra`. */
    method RescindirObra(store: Store)
      requires 1 <= id <= |store.obras|
      modifies this, store
      ensures id == old(id)
      ensures Obras.Paso(store.Estado(), registro, true) == Obras.ConEtapa(old(store.Estado()), id, old(registro), "Rescisión")
    {
      PonerEtapa(store, "Rescisión");
    }

    /**
     * `iniciar_contratacion`, with the type dialog's rounds and the two
     * texts typed as parameters. `completo` is false when the dialog runs
     * out of rounds (the program would keep asking).
     */
    method IniciarContratacion(store: Store, intentos: seq<Intento>, monto: string, nro: string) returns (completo: bool)
      requires 1 <= id <= |store.obras|
      modifies this, store
      ensures id == old(id)
      ensures Obras.Paso(store.Estado(), registro, completo)
           == Obras.IniciarContratacion(old(store.Estado()), id, old(registro), intentos, monto, nro)
    {
      ghost var p := Obras.IniciarContratacion(store.Estado(), id, registro, intentos, monto, nro);
      var t := PedirYValidarOCrear(store, TipoContratacion, intentos);
      if t.None? {
        assert Obras.Paso(store.Estado(), registro, false) == p;
        return false;
      }
      registro := registro.(tipoContratacion := t, montoContrato := Some(Obras.Adaptar(Strip(monto))),
                            nroContratacion := Some(Strip(nro)));
      Guardar(store);
      assert Obras.Paso(store.Estado(), registro, true) == p;
      completo := true;
    }

    /**
     * `adjudicar_obra`: asks for company names until one, stripped, names
     * an existing company (none is ever created), then sets it and the
     * file number.
     */
    method AdjudicarObra(store: Store, nombres: seq<string>, expediente: string) returns (completo: bool)
      requires 1 <= id <= |store.obras|
      modifies this, store
      ensures id == old(id)
      ensures Obras.Paso(store.Estado(), registro, completo)
           == Obras.AdjudicarObra(old(store.Estado()), id, old(registro), nombres, expediente)
    {
      ghost var p := Obras.AdjudicarObra(store.Estado(), id, registro, nombres, expediente);
      var e := ElegirEmpresa(store, nombres);
      if e.None? {
        assert Obras.Paso(store.Estado(), registro, false) == p;
        return false;
      }
      registro := registro.(empresaLicitadora := e, expediente := Some(Strip(expediente)));
      Guardar(store);
      assert Obras.Paso(store.Estado(), registro, true) == p;
      completo := true;
    }

    /**
     * `iniciar_obra`: highlighted or not, the start and estimated end
     * dates, the funding (a dialog on Financiamiento) and the headcount,
     * asked in that order.
     */
    method IniciarObra(store: Store, respuestasDestacada: seq<string>, inicios: seq<Option<Fecha>>,
                       fines: seq<Option<Fecha>>, intentos: seq<Intento>, personas: seq<string>) returns (completo: bool)
      requires 1 <= id <= |store.obras|
      modifies this, store
      ensures id == old(id)
      ensures Obras.Paso(store.Estado(), registro, completo)
           == Obras.IniciarObra(old(store.Estado()), id, old(registro), respuestasDestacada, inicios, fines, intentos, personas)
    {
      ghost var r0, db0 := registro, store.Estado();
      ghost var p := Obras.IniciarObra(db0, id, r0, respuestasDestacada, inicios, fines, intentos, personas);
      var d := Pedir(respuestasDestacada, SiNo);
      var fi := Pedir(inicios, Obras.LeerFecha);
      var ff := Pedir(fines, Obras.LeerFecha);
      if d.None? || fi.None? || ff.None? {
        assert Obras.Paso(store.Estado(), registro, false) == p;
        return false;
      }
      var f := PedirYValidarOCrear(store, Financiamiento, intentos);
      var m := Pedir(personas, ParseInt);
      if f.None? || m.None? {
        assert Obras.Paso(store.Estado(), registro, false) == p;
        return false;
      }
      registro := registro.(destacada := d, fechaInicio := fi, fechaFinInicial := ff, financiamiento := f, manoDeObra := m);
      Guardar(store);
      assert Obras.Paso(store.Estado(), registro, true) == p;
      completo := true;
    }

    /** `actualizar_porcentaje_avance`: the progress becomes the first answer that reads as a number. */
    method ActualizarPorcentajeAvance(store: Store, respuestas: seq<string>) returns (completo: bool)
      requires 1 <= id <= |store.obras|
      modifies this, store
      ensures id == old(id)
      ensures Obras.Paso(store.Estado(), registro, completo)
           == Obras.ActualizarPorcentajeAvance(old(store.Estado()), id, old(registro), respuestas)
    {
      ghost var p := Obras.ActualizarPorcentajeAvance(store.Estado(), id, registro, respuestas);
      var v := Pedir(respuestas, ParseFloat);
      if v.None? {
        assert Obras.Paso(store.Estado(), registro, false) == p;
        return false;
      }
      registro := registro.(porcentajeAvance := v);
      Guardar(store);
      assert Obras.Paso(store.Estado(), registro, true) == p;
      completo := true;
    }

    /** `incrementar_plazo`: the term becomes the first answer that reads as a number. */
    method IncrementarPlazo(store: Store, respuestas: seq<string>) returns (completo: bool)
      requires 1 <= id <= |store.obras|
      modifies this, store
      ensures id == old(id)
      ensures Obras.Paso(store.Estado(), registro, completo)
           == Obras.IncrementarPlazo(old(store.Estado()), id, old(registro), respuestas)
    {
      ghost var p := Obras.IncrementarPlazo(store.Estado(), id, registro, respuestas);
      var v := Pedir(respuestas, ParseFloat);
      if v.None? {
        assert Obras.Paso(store.Estado(), registro, false) == p;
        return false;
      }
      registro := registro.(plazo := v);
      Guardar(store);
      assert Obras.Paso(store.Estado(), registro, true) == p;
      completo := true;
    }

    /** `incrementar_mano_obra`: the headcount becomes the first answer that reads as an integer. */
    method IncrementarManoObra(store: Store, respuestas: seq<string>) returns (completo: bool)
      requires 1 <= id <= |store.obras|
      modifies this, store
      ensures id == old(id)
      ensures Obras.Paso(store.Estado(), registro, completo)
           == Obras.IncrementarManoObra(old(store.Estado()), id, old(registro), respuestas)
    {
      ghost var p := Obras.IncrementarManoObra(store.Estado(), id, registro, respuestas);
      var v := Pedir(respuestas, ParseInt);
      if v.None? {
        assert Obras.Paso(store.Estado(), registro, false) == p;
        return false;
      }
      registro := registro.(manoDeObra := v);
      Guardar(store);
      assert Obras.Paso(store.Estado(), registro, true) == p;
      completo := true;
    }
  }

  /**
   * The search loop of `adjudicar_obra`: the id of the first company whose
   * name is one of the names typed, stripped. It only reads the database.
   */
  method ElegirEmpresa(store: Store, nombres: seq<string>) returns (e: Option<nat>)
    ensures e == Obras.PrimeraEmpresa(store.Estado(), nombres)
  {
    e := None;
    var i := 0;
    while i < |nombres| && e.None?
      invariant 0 <= i <= |nombres|
      invariant e.None? ==> Obras.PrimeraEmpresa(store.Estado(), nombres) == Obras.PrimeraEmpresa(store.Estado(), nombres[i..])
      invariant e.Some? ==> Obras.PrimeraEmpresa(store.Estado(), nombres) == e
    {
      assert nombres[i..][1..] == nombres[i + 1..];
      var hit := store.Estado().BuscarEmpresa(Strip(nombres[i]));
      if hit.Some? {
        e := Some(store.empresas[hit.value].id);
      }
      i := i + 1;
    }
  }
}
