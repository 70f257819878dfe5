/**
 * The interactive helpers of gestionar_obras.py. Console input becomes a
 * parameter: each prompt's answers arrive as a sequence, consumed in order
 * by the loop that would otherwise prompt again. When the answers run out
 * before one is accepted, the loop ends without a result.
 */
module Pedidos {
  import opened Wrappers
  import opened Texto
  import opened Tablas

  /** The answer, stripped and lower-cased, is "si" or "sí". */
  predicate Afirmativo(respuesta: string) {
    Lower(Strip(respuesta)) in {"si", "sí"}
  }

  /** One answer to `pedir_si_no`: "SI", "NO", or None when it is rejected and asked again. */
  function SiNo(respuesta: string): (r: Option<string>)
    ensures r.Some? ==> r.value in {"SI", "NO"}
  {
    var v := Lower(Strip(respuesta));
    if v in {"si", "sí"} then Some("SI") else if v == "no" then Some("NO") else None
  }

  /** "SI" exactly for the yes answers, "NO" exactly for "no", nothing else is accepted. */
  lemma SiNoCases(respuesta: string)
    ensures SiNo(respuesta) == Some("SI") <==> Afirmativo(respuesta)
    ensures SiNo(respuesta) == Some("NO") <==> Lower(Strip(respuesta)) == "no"
    ensures SiNo(respuesta).None? <==> !Afirmativo(respuesta) && Lower(Strip(respuesta)) != "no"
  {
  }

  /** The canonical answers read back as themselves. */
  lemma SiNoCanonical(respuesta: string)
    requires SiNo(respuesta).Some?
    ensures SiNo(SiNo(respuesta).value) == SiNo(respuesta)
  {
    StripNoEdges("SI");
    StripNoEdges("NO");
    assert Lower("SI") == "si";
    assert Lower("NO") == "no";
  }

  /** Case and surrounding blanks do not matter: " Sí " is a yes, "No" is a no, "s" is rejected. */
  lemma SiNoEjemplos()
    ensures SiNo(" Sí ") == Some("SI")
    ensures SiNo("No") == Some("NO")
    ensures SiNo("s") == None
  {
    assert Strip(" Sí ") == "Sí" by {
      assert LeadingSpaces(" Sí ") == 1;
      assert " Sí "[1..] == "Sí ";
      assert TrailingSpaces("Sí ") == 1;
      assert "Sí "[..2] == "Sí";
    }
    assert Lower("Sí") == "sí";
    StripNoEdges("No");
    assert Lower("No") == "no";
    StripNoEdges("s");
    assert Lower("s") == "s";
  }

  /**
   * The value the first accepted answer gives, or None when `leer` accepts
   * none of them: what `pedir_si_no`, `pedir_float`, `pedir_int` and
   * `pedir_fecha` return once their answers are fixed.
   */
  function Leido<A, T>(respuestas: seq<A>, leer: A -> Option<T>): Option<T>
  {
    if respuestas == [] then None
    else if leer(respuestas[0]).Some? then leer(respuestas[0])
    else Leido(respuestas[1..], leer)
  }

  /** Nothing is read exactly when no answer is accepted. */
  lemma {:induction false} LeidoNinguno<A, T>(respuestas: seq<A>, leer: A -> Option<T>)
    ensures Leido(respuestas, leer).None? <==> forall j :: 0 <= j < |respuestas| ==> leer(respuestas[j]).None?
  {
    if respuestas != [] {
      LeidoNinguno(respuestas[1..], leer);
      assert forall j :: 1 <= j < |respuestas| ==> respuestas[1..][j - 1] == respuestas[j];
    }
  }

  /** A value read is what `leer` gave for one of the answers. */
  lemma {:induction false} LeidoAlguno<A, T>(respuestas: seq<A>, leer: A -> Option<T>)
    ensures Leido(respuestas, leer).Some? ==>
      exists j :: 0 <= j < |respuestas| && leer(respuestas[j]) == Leido(respuestas, leer)
  {
    if respuestas != [] && leer(respuestas[0]).None? {
      LeidoAlguno(respuestas[1..], leer);
      if Leido(respuestas, leer).Some? {
        var j :| 0 <= j < |respuestas[1..]| && leer(respuestas[1..][j]) == Leido(respuestas[1..], leer);
        assert respuestas[1..][j] == respuestas[j + 1];
      }
    }
  }

  /** The first accepted answer decides; later answers are never read. */
  lemma {:induction false} LeidoPrimero<A, T>(respuestas: seq<A>, leer: A -> Option<T>, j: nat)
    requires j < |respuestas| && leer(respuestas[j]).Some?
    requires forall i :: 0 <= i < j ==> leer(respuestas[i]).None?
    ensures Leido(respuestas, leer) == leer(respuestas[j])
  {
    if j > 0 {
      assert leer(respuestas[0]).None?;
      forall i | 0 <= i < j - 1 ensures leer(respuestas[1..][i]).None? {
        assert respuestas[1..][i] == respuestas[i + 1];
      }
      assert respuestas[1..][j - 1] == respuestas[j];
      LeidoPrimero(respuestas[1..], leer, j - 1);
    }
  }

  /**
   * `pedir_si_no`, `pedir_float`, `pedir_int`, `pedir_fecha`: asks until
   * `leer` accepts an answer, and returns the first value accepted.
   */
  method Pedir<A, T>(respuestas: seq<A>, leer: A -> Option<T>) returns (r: Option<T>)
    ensures r == Leido(respuestas, leer)
  {
    r := None;
    var i := 0;
    while i < |respuestas| && r.None?
      invariant 0 <= i <= |respuestas|
      invariant r.None? ==> Leido(respuestas, leer) == Leido(respuestas[i..], leer)
      invariant r.Some? ==> r == Leido(respuestas, leer)
    {
      assert respuestas[i..][0] == respuestas[i] && respuestas[i..][1..] == respuestas[i + 1..];
      r := leer(respuestas[i]);
      i := i + 1;
    }
    if r.None? {
      assert respuestas[i..] == [];
    }
  }

  /** `pedir_si_no` accepts the first answer that reads as yes or no, and returns "SI" or "NO". */
  lemma PedirSiNoCanonico(respuestas: seq<string>)
    ensures Leido(respuestas, SiNo).Some? ==> Leido(respuestas, SiNo).value in {"SI", "NO"}
  {
    if Leido(respuestas, SiNo).Some? {
      LeidoNinguno(respuestas, SiNo);
      var j :| 0 <= j < |respuestas| && SiNo(respuestas[j]).Some?;
    }
  }

  /** One round of `pedir_y_validar_o_crear`: the value typed, then the answer to "create it?". */
  datatype Intento = Intento(valor: string, respuesta: string)

  /**
   * One round on lookup table `k`: a row whose text equals the stripped value
   * is returned; otherwise a new row is created only on a yes answer.
   */
  function Ronda(db: Base, k: Catalogo, it: Intento): (Base, Option<nat>)
  {
    var v := Strip(it.valor);
    match Buscar(db.Tabla(k), v)
    case Some(i) => (db, Some(db.Tabla(k)[i].id))
    case None =>
      if Afirmativo(it.respuesta) then
        var c := db.Crear(k, v);
        (c.0, Some(c.1))
      else (db, None)
  }

  /** The whole `pedir_y_validar_o_crear` dialog on lookup table `k`: rounds until one yields a row. */
  function Interactivo(db: Base, k: Catalogo, intentos: seq<Intento>): (r: (Base, Option<nat>))
    ensures r.0.obras == db.obras && r.0.empresas == db.empresas && r.0.barrios == db.barrios
  {
    if intentos == [] then (db, None)
    else
      var p := Ronda(db, k, intentos[0]);
      if p.1.Some? then p else Interactivo(db, k, intentos[1..])
  }

  /** One round keeps the database valid, only grows it, and touches only table `k`. */
  lemma RondaValida(db: Base, k: Catalogo, it: Intento)
    requires db.Valid()
    ensures var res := Ronda(db, k, it); var d := res.0; var r := res.1;
      && d.Valid() && Crece(db, d) && SoloTabla(db, d, k)
      && (r.Some? ==> 1 <= r.value <= |d.Tabla(k)| && d.Tabla(k)[r.value - 1].texto == Strip(it.valor))
  {
    var v := Strip(it.valor);
    match Buscar(db.Tabla(k), v)
    case Some(i) =>
      assert CatalogoValido(db.catalogos[k]);
      SoloTablaRefl(db, k);
    case None =>
      if Afirmativo(it.respuesta) {
        ConTablaValida(db, k, v);
      } else {
        SoloTablaRefl(db, k);
      }
  }

  /** A round whose stripped value is already in the table returns that row and changes nothing. */
  lemma RondaExistente(db: Base, k: Catalogo, it: Intento, j: nat)
    requires CatalogoValido(db.Tabla(k))
    requires j < |db.Tabla(k)| && db.Tabla(k)[j].texto == Strip(it.valor)
    ensures Ronda(db, k, it) == (db, Some(j + 1))
  {
    var t := db.Tabla(k);
    var hit := Buscar(t, Strip(it.valor));
    assert hit.Some?;
    assert t[hit.value].texto == t[j].texto;
    assert hit.value == j;
  }

  /**
   * A round whose stripped value is not in the table creates exactly one
   * row holding that value when the answer is yes, and nothing otherwise.
   */
  lemma RondaNueva(db: Base, k: Catalogo, it: Intento)
    requires forall j :: 0 <= j < |db.Tabla(k)| ==> db.Tabla(k)[j].texto != Strip(it.valor)
    ensures var res := Ronda(db, k, it); var d := res.0; var r := res.1;
      if Afirmativo(it.respuesta)
      then (d, r) == (db.Crear(k, Strip(it.valor)).0, Some(|db.Tabla(k)| + 1))
      else d == db && r.None?
  {
  }

  /**
   * The dialog's outcome is that of a single round on the database as it
   * was; when no round yields a row, nothing changes.
   */
  lemma {:induction false} InteractivoSpec(db: Base, k: Catalogo, intentos: seq<Intento>)
    ensures var res := Interactivo(db, k, intentos); var d := res.0; var r := res.1;
      && (r.None? ==> d == db)
      && (r.Some? ==> exists j :: 0 <= j < |intentos| && Ronda(db, k, intentos[j]) == (d, r))
  {
    if intentos != [] && Ronda(db, k, intentos[0]).1.None? {
      InteractivoSpec(db, k, intentos[1..]);
      var res := Interactivo(db, k, intentos[1..]); var d := res.0; var r := res.1;
      if r.Some? {
        var j :| 0 <= j < |intentos[1..]| && Ronda(db, k, intentos[1..][j]) == (d, r);
        assert intentos[1..][j] == intentos[j + 1];
      }
    }
  }

  /** The dialog yields nothing exactly when every round yields nothing. */
  lemma {:induction false} InteractivoNinguna(db: Base, k: Catalogo, intentos: seq<Intento>)
    ensures Interactivo(db, k, intentos).1.None? <==> forall j :: 0 <= j < |intentos| ==> Ronda(db, k, intentos[j]).1.None?
  {
    if intentos != [] && Ronda(db, k, intentos[0]).1.None? {
      InteractivoNinguna(db, k, intentos[1..]);
      assert forall j :: 1 <= j < |intentos| ==> intentos[1..][j - 1] == intentos[j];
    }
  }

  /** The first round that yields a row decides the dialog; the later answers are never read. */
  lemma {:induction false} InteractivoPrimera(db: Base, k: Catalogo, intentos: seq<Intento>, j: nat)
    requires j < |intentos| && Ronda(db, k, intentos[j]).1.Some?
    requires forall i :: 0 <= i < j ==> Ronda(db, k, intentos[i]).1.None?
    ensures Interactivo(db, k, intentos) == Ronda(db, k, intentos[j])
  {
    if j > 0 {
      assert Ronda(db, k, intentos[0]).1.None?;
      forall i | 0 <= i < j - 1 ensures Ronda(db, k, intentos[1..][i]).1.None? {
        assert intentos[1..][i] == intentos[i + 1];
      }
      assert intentos[1..][j - 1] == intentos[j];
      InteractivoPrimera(db, k, intentos[1..], j - 1);
    }
  }

  /** The dialog keeps the database valid, only grows it, and touches only table `k`. */
  lemma InteractivoValido(db: Base, k: Catalogo, intentos: seq<Intento>)
    requires db.Valid()
    ensures var res := Interactivo(db, k, intentos); var d := res.0; var r := res.1;
      && d.Valid() && Crece(db, d) && SoloTabla(db, d, k)
      && (r.Some? ==> 1 <= r.value <= |d.Tabla(k)|)
  {
    InteractivoSpec(db, k, intentos);
    var res := Interactivo(db, k, intentos); var d := res.0; var r := res.1;
    if r.Some? {
      var j :| 0 <= j < |intentos| && Ronda(db, k, intentos[j]) == (d, r);
      RondaValida(db, k, intentos[j]);
    } else {
      SoloTablaRefl(db, k);
    }
  }

  /** A row a round returns holds, exactly, the stripped value typed. */
  lemma RondaTexto(db: Base, k: Catalogo, it: Intento)
    requires CatalogoValido(db.Tabla(k))
    ensures var res := Ronda(db, k, it); var d := res.0; var r := res.1;
      r.Some? ==> (1 <= r.value <= |d.Tabla(k)| && d.Tabla(k)[r.value - 1].texto == Strip(it.valor))
  {
  }

  /** A row the dialog returns holds, exactly, the stripped value typed in one of the rounds. */
  lemma InteractivoTexto(db: Base, k: Catalogo, intentos: seq<Intento>)
    requires CatalogoValido(db.Tabla(k))
    ensures var res := Interactivo(db, k, intentos); var d := res.0; var r := res.1;
      r.Some? ==> (1 <= r.value <= |d.Tabla(k)|
        && exists j :: 0 <= j < |intentos| && d.Tabla(k)[r.value - 1].texto == Strip(intentos[j].valor))
  {
    var j := InteractivoRonda(db, k, intentos);
    if Interactivo(db, k, intentos).1.Some? {
      RondaTexto(db, k, intentos[j]);
    }
  }

  /** A dialog that yields a row ends with round `j`, for the `j` returned. */
  lemma InteractivoRonda(db: Base, k: Catalogo, intentos: seq<Intento>) returns (j: nat)
    ensures Interactivo(db, k, intentos).1.Some? ==> j < |intentos| && Ronda(db, k, intentos[j]) == Interactivo(db, k, intentos)
  {
    InteractivoSpec(db, k, intentos);
    j := 0;
    if Interactivo(db, k, intentos).1.Some? {
      j :| 0 <= j < |intentos| && Ronda(db, k, intentos[j]) == Interactivo(db, k, intentos);
    }
  }

  /** When the first value typed already exists, the dialog returns that row and changes nothing. */
  lemma InteractivoExistente(db: Base, k: Catalogo, intentos: seq<Intento>, j: nat)
    requires CatalogoValido(db.Tabla(k)) && intentos != []
    requires j < |db.Tabla(k)| && db.Tabla(k)[j].texto == Strip(intentos[0].valor)
    ensures Interactivo(db, k, intentos) == (db, Some(j + 1))
  {
    RondaExistente(db, k, intentos[0], j);
  }

  /** Without a yes answer the dialog never creates a row. */
  lemma InteractivoSinConsentimiento(db: Base, k: Catalogo, intentos: seq<Intento>)
    requires forall j :: 0 <= j < |intentos| ==> !Afirmativo(intentos[j].respuesta)
    ensures Interactivo(db, k, intentos).0 == db
  {
    InteractivoSpec(db, k, intentos);
    var res := Interactivo(db, k, intentos); var d := res.0; var r := res.1;
    if r.Some? {
      var j :| 0 <= j < |intentos| && Ronda(db, k, intentos[j]) == (d, r);
    }
  }

  /** The dialog's first round: either it yields a row and ends the dialog, or it changes nothing. */
  lemma InteractivoUnPaso(db: Base, k: Catalogo, intentos: seq<Intento>)
    requires intentos != []
    ensures Ronda(db, k, intentos[0]).1.Some? ==> Interactivo(db, k, intentos) == Ronda(db, k, intentos[0])
    ensures Ronda(db, k, intentos[0]).1.None? ==>
      Ronda(db, k, intentos[0]).0 == db && Interactivo(db, k, intentos) == Interactivo(db, k, intentos[1..])
  {
  }

  /** One round of `pedir_y_validar_o_crear` on the live database. */
  method PedirRonda(store: Store, k: Catalogo, it: Intento) returns (r: Option<nat>)
    modifies store
    ensures (store.Estado(), r) == Ronda(old(store.Estado()), k, it)
  {
    var v := Strip(it.valor);
    var t := store.catalogos[k];
    var hit := Buscar(t, v);
    if hit.Some? {
      r := Some(t[hit.value].id);
    } else if Afirmativo(it.respuesta) {
      var id := store.Agregar(k, v);
      r := Some(id);
    } else {
      r := None;
    }
  }

  /**
   * `pedir_y_validar_o_crear(modelo, campo, mensaje)` on lookup table `k`,
   * without `campos_extra`.
   */
  method PedirYValidarOCrear(store: Store, k: Catalogo, intentos: seq<Intento>) returns (r: Option<nat>)
    modifies store
    ensures (store.Estado(), r) == Interactivo(old(store.Estado()), k, intentos)
  {
    ghost var db0 := store.Estado();
    ghost var fin := Interactivo(db0, k, intentos);
    r := None;
    var i := 0;
    while i < |intentos| && r.None?
      invariant 0 <= i <= |intentos|
      invariant r.None? ==> store.Estado() == db0 && fin == Interactivo(db0, k, intentos[i..])
      invariant r.Some? ==> store.Estado() == fin.0 && r == fin.1
    {
      InteractivoDesde(db0, k, intentos, i);
      r := PedirRonda(store, k, intentos[i]);
      i := i + 1;
    }
    if r.None? {
      assert intentos[i..] == [];
    }
  }

  /** The dialog from answer `i` on: answer `i`'s round, then the rest if that round gives nothing. */
  lemma InteractivoDesde(db: Base, k: Catalogo, intentos: seq<Intento>, i: nat)
    requires i < |intentos|
    ensures var p := Ronda(db, k, intentos[i]);
      && (p.1.Some? ==> Interactivo(db, k, intentos[i..]) == p)
      && (p.1.None? ==> p.0 == db && Interactivo(db, k, intentos[i..]) == Interactivo(db, k, intentos[i + 1..]))
  {
    assert intentos[i..][0] == intentos[i] && intentos[i..][1..] == intentos[i + 1..];
    InteractivoUnPaso(db, k, intentos[i..]);
  }

  /** A Barrio round answered "no" on a missing name: the dialog asks again. */
  predicate Sigue(db: Base, it: Intento) {
    db.BuscarBarrio(Strip(it.valor)).None? && !Afirmativo(it.respuesta)
  }

  /**
   * A Barrio round that ends the dialog: an existing barrio of that name
   * (in any comuna), or, on a yes answer, the Comuna dialog followed by a
   * new barrio with the typed name and that Comuna. If the Comuna dialog
   * runs out of answers, nothing is created.
   */
  function RondaBarrio(db: Base, it: Intento, intentosComuna: seq<Intento>): (Base, Option<nat>)
  {
    var v := Strip(it.valor);
    match db.BuscarBarrio(v)
    case Some(i) => (db, Some(db.barrios[i].id))
    case None =>
      var res := Interactivo(db, Comuna, intentosComuna); var d1 := res.0; var c := res.1;
      if c.Some? then
        var res := d1.CrearBarrio(v, c.value); var d2 := res.0; var id := res.1;
        (d2, Some(id))
      else (d1, None)
  }

  /** The Barrio dialog (`campos_extra=crear_barrio_con_comuna`): rounds until one ends it. */
  function InteractivoBarrio(db: Base, intentos: seq<Intento>, intentosComuna: seq<Intento>): (Base, Option<nat>)
  {
    if intentos == [] then (db, None)
    else if Sigue(db, intentos[0]) then InteractivoBarrio(db, intentos[1..], intentosComuna)
    else RondaBarrio(db, intentos[0], intentosComuna)
  }

  /**
   * A Barrio round keeps the database valid, changes only the Barrio and
   * Comuna tables, and returns a barrio carrying the typed name.
   */
  lemma RondaBarrioValida(db: Base, it: Intento, intentosComuna: seq<Intento>)
    requires db.Valid()
    ensures var res := RondaBarrio(db, it, intentosComuna); var d := res.0; var r := res.1;
      && d.Valid() && Crece(db, d) && SoloBarrios(db, d)
      && (r.Some? ==> 1 <= r.value <= |d.barrios| && d.barrios[r.value - 1].nombre == Strip(it.valor))
  {
    var v := Strip(it.valor);
    match db.BuscarBarrio(v)
    case Some(i) =>
      SoloTablaRefl(db, Comuna);
    case None =>
      InteractivoValido(db, Comuna, intentosComuna);
      var res := Interactivo(db, Comuna, intentosComuna); var d1 := res.0; var c := res.1;
      if c.Some? {
        CrearBarrioValido(d1, v, c.value);
        CreceTrans(db, d1, d1.CrearBarrio(v, c.value).0);
      }
  }

  /**
   * A Barrio round that creates a barrio creates exactly one, as the last
   * row: its name is the typed one, which no barrio had before, and its
   * Comuna is what the Comuna dialog returned on the database as it was.
   * A round that returns nothing changes nothing.
   */
  lemma RondaBarrioNueva(db: Base, it: Intento, intentosComuna: seq<Intento>)
    ensures var res := RondaBarrio(db, it, intentosComuna); var d := res.0; var r := res.1;
      && (r.None? ==> d == db)
      && (|d.barrios| != |db.barrios| ==>
            && r == Some(|d.barrios|) && |d.barrios| == |db.barrios| + 1
            && (forall j :: 0 <= j < |db.barrios| ==> db.barrios[j].nombre != Strip(it.valor))
            && d.barrios[|db.barrios|].nombre == Strip(it.valor)
            && Interactivo(db, Comuna, intentosComuna) == (d.(barrios := db.barrios), Some(d.barrios[|db.barrios|].comuna)))
  {
    var v := Strip(it.valor);
    match db.BuscarBarrio(v)
    case Some(i) =>
    case None =>
      InteractivoSpec(db, Comuna, intentosComuna);
      var res := Interactivo(db, Comuna, intentosComuna); var d1 := res.0; var c := res.1;
      if c.Some? {
        var j :| 0 <= j < |intentosComuna| && Ronda(db, Comuna, intentosComuna[j]) == (d1, c);
        assert d1.barrios == db.barrios;
      }
  }

  /**
   * The Barrio dialog's outcome is that of the first round that does not
   * ask again, on the database as it was; when every round asks again,
   * nothing changes.
   */
  lemma {:induction false} InteractivoBarrioSpec(db: Base, intentos: seq<Intento>, intentosComuna: seq<Intento>)
    ensures var res := InteractivoBarrio(db, intentos, intentosComuna); var d := res.0; var r := res.1;
      || (d, r) == (db, None)
      || exists j :: 0 <= j < |intentos| && !Sigue(db, intentos[j]) && RondaBarrio(db, intentos[j], intentosComuna) == (d, r)
  {
    if intentos != [] && Sigue(db, intentos[0]) {
      InteractivoBarrioSpec(db, intentos[1..], intentosComuna);
      var res := InteractivoBarrio(db, intentos[1..], intentosComuna); var d := res.0; var r := res.1;
      if (d, r) != (db, None) {
        var j :| 0 <= j < |intentos[1..]| && !Sigue(db, intentos[1..][j])
          && RondaBarrio(db, intentos[1..][j], intentosComuna) == (d, r);
        assert intentos[1..][j] == intentos[j + 1];
      }
    } else if intentos != [] {
      assert !Sigue(db, intentos[0]);
    }
  }

  /**
   * The Barrio dialog keeps the database valid and changes only the Barrio
   * and Comuna tables; it creates at most one barrio, whose name no barrio
   * had before.
   */
  lemma InteractivoBarrioValido(db: Base, intentos: seq<Intento>, intentosComuna: seq<Intento>)
    requires db.Valid()
    ensures var res := InteractivoBarrio(db, intentos, intentosComuna); var d := res.0; var r := res.1;
      && d.Valid() && Crece(db, d) && SoloBarrios(db, d)
      && (r.Some? ==> 1 <= r.value <= |d.barrios|)
  {
    InteractivoBarrioSpec(db, intentos, intentosComuna);
    var res := InteractivoBarrio(db, intentos, intentosComuna); var d := res.0; var r := res.1;
    if (d, r) != (db, None) {
      var j :| 0 <= j < |intentos| && !Sigue(db, intentos[j]) && RondaBarrio(db, intentos[j], intentosComuna) == (d, r);
      RondaBarrioValida(db, intentos[j], intentosComuna);
    } else {
      SoloTablaRefl(db, Comuna);
    }
  }

  /** The Barrio dialog creates at most one barrio, and its name is one no barrio had before. */
  lemma InteractivoBarrioNueva(db: Base, intentos: seq<Intento>, intentosComuna: seq<Intento>)
    ensures var res := InteractivoBarrio(db, intentos, intentosComuna); var d := res.0; var r := res.1;
      && |d.barrios| <= |db.barrios| + 1
      && (|d.barrios| > |db.barrios| ==> forall j :: 0 <= j < |db.barrios| ==> db.barrios[j].nombre != d.barrios[|db.barrios|].nombre)
  {
    InteractivoBarrioSpec(db, intentos, intentosComuna);
    var res := InteractivoBarrio(db, intentos, intentosComuna); var d := res.0; var r := res.1;
    if (d, r) != (db, None) {
      var j :| 0 <= j < |intentos| && !Sigue(db, intentos[j]) && RondaBarrio(db, intentos[j], intentosComuna) == (d, r);
      RondaBarrioNueva(db, intentos[j], intentosComuna);
    }
  }

  /**
   * The end of a Barrio round, once the name was found or creating it was
   * accepted: the existing barrio, or the Comuna dialog and a new barrio.
   */
  method CerrarRondaBarrio(store: Store, it: Intento, intentosComuna: seq<Intento>) returns (r: Option<nat>)
    modifies store
    ensures (store.Estado(), r) == RondaBarrio(old(store.Estado()), it, intentosComuna)
  {
    var v := Strip(it.valor);
    var hit := store.Estado().BuscarBarrio(v);
    if hit.Some? {
      r := Some(store.barrios[hit.value].id);
    } else {
      var c := PedirYValidarOCrear(store, Comuna, intentosComuna);
      r := None;
      if c.Some? {
        var id := store.AgregarBarrio(v, c.value);
        r := Some(id);
      }
    }
  }

  /** `pedir_y_validar_o_crear(Barrio, Barrio.Barrio, ..., campos_extra=crear_barrio_con_comuna)`. */
  method PedirBarrio(store: Store, intentos: seq<Intento>, intentosComuna: seq<Intento>) returns (r: Option<nat>)
    requires store.Valid()
    modifies store
    ensures store.Valid() && Crece(old(store.Estado()), store.Estado())
    ensures (store.Estado(), r) == InteractivoBarrio(old(store.Estado()), intentos, intentosComuna)
  {
    ghost var db0 := store.Estado();
    InteractivoBarrioValido(db0, intentos, intentosComuna);
    r := None;
    var i := 0;
    var fin := false;
    while i < |intentos| && !fin
      invariant 0 <= i <= |intentos|
      invariant !fin ==> r.None? && store.Estado() == db0
      invariant !fin ==> InteractivoBarrio(db0, intentos, intentosComuna) == InteractivoBarrio(db0, intentos[i..], intentosComuna)
      invariant fin ==> (store.Estado(), r) == InteractivoBarrio(db0, intentos, intentosComuna)
    {
      assert intentos[i..][0] == intentos[i] && intentos[i..][1..] == intentos[i + 1..];
      if !Sigue(store.Estado(), intentos[i]) {
        r := CerrarRondaBarrio(store, intentos[i], intentosComuna);
        fin := true;
      }
      i := i + 1;
    }
    if !fin {
      assert intentos[i..] == [];
    }
  }
}
