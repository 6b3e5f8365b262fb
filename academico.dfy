/** The academic schema: professors own courses, students enroll in courses
    through enrollment rows, and a student has at most one profile.
    Tables are finite maps from row id to row; deletes cascade along every
    `on_delete=CASCADE` foreign key. */
module Academico {
  import opened Results
  import opened Columns

  /** `CharField(max_length=100)` on every name. */
  const NombreMax := 100
  /** Django's default `max_length` of an `EmailField`. */
  const EmailMax := 254
  /** `redes = CharField(max_length=255)`. */
  const RedesMax := 255
  /** Django's default `max_length` of the stored path of an `ImageField`. */
  const FotoMax := 100

  /** A calendar date, as the clock gives it when an enrollment is created. */
  datatype Date = Date(year: int, month: int, day: int)

  datatype Profesor = Profesor(nombre: string, email: string)

  datatype Curso = Curso(nombre: string, descripcion: string, profesor: nat)

  datatype Estudiante = Estudiante(nombre: string, email: string)

  /** The closed set of enrollment states `'A'` and `'F'`. */
  datatype Estado = Activo | Finalizado

  datatype Inscripcion = Inscripcion(
    estudiante: nat,
    curso: nat,
    fechaInscripcion: Date,
    estado: Estado,
    notaFinal: Option<real>)

  /** A profile; its key in the profile table is its student's id. */
  datatype Perfil = Perfil(biografia: string, foto: Option<string>, redes: string)

  // ---------------------------------------------------------------------------
  // The choice list of `estado` and `__str__`

  /** `ESTADO_CHOICES`: the stored code and the label of each state. */
  const EstadoChoices: seq<(string, string)> := [("A", "Activo"), ("F", "Finalizado")]

  /** The stored one-letter code of a state; only the declared codes are stored. */
  function Codigo(e: Estado): (c: string)
    ensures |c| == 1 && (c == "A" || c == "F")
  {
    match e
    case Activo => "A"
    case Finalizado => "F"
  }

  /** The human-readable label of a state (`get_estado_display`): the label the
      choice list pairs with the state's code. */
  function Label(e: Estado): (l: string)
    ensures (Codigo(e), l) in EstadoChoices
  {
    match e
    case Activo => "Activo"
    case Finalizado => "Finalizado"
  }

  /** Reads a stored code back; only the two declared codes are states. */
  function ParseEstado(code: string): (r: Option<Estado>)
    ensures r.Some? <==> code == "A" || code == "F"
    ensures r.Some? ==> Codigo(r.value) == code
  {
    if code == "A" then Some(Activo)
    else if code == "F" then Some(Finalizado)
    else None
  }

  lemma CodigoRoundTrip(e: Estado)
    ensures ParseEstado(Codigo(e)) == Some(e)
    ensures |Codigo(e)| == 1
  {
  }

  /** Distinct states have distinct codes and distinct labels. */
  lemma ChoicesInjective(e: Estado, f: Estado)
    ensures Codigo(e) == Codigo(f) <==> e == f
    ensures Label(e) == Label(f) <==> e == f
  {
  }

  /** `Inscripcion.__str__`: "<student name> en <course name>". */
  function InscripcionStr(estudiante: Estudiante, curso: Curso): (s: string)
    ensures |s| == |estudiante.nombre| + 4 + |curso.nombre|
    ensures s[..|estudiante.nombre|] == estudiante.nombre
    ensures s[|estudiante.nombre|..|estudiante.nombre| + 4] == " en "
    ensures s[|estudiante.nombre| + 4..] == curso.nombre
  {
    estudiante.nombre + " en " + curso.nombre
  }

  /** For a given student, the display string determines the course name. */
  lemma InscripcionStrCurso(estudiante: Estudiante, a: Curso, b: Curso)
    ensures InscripcionStr(estudiante, a) == InscripcionStr(estudiante, b) <==> a.nombre == b.nombre
  {
  }

  /** For a given course, the display string determines the student name. */
  lemma InscripcionStrEstudiante(a: Estudiante, b: Estudiante, curso: Curso)
    ensures InscripcionStr(a, curso) == InscripcionStr(b, curso) <==> a.nombre == b.nombre
  {
  }

  /** The display string alone does not determine the pair: a name may itself
      contain " en ". */
  lemma InscripcionStrAmbiguous()
    ensures InscripcionStr(Estudiante("x en y", "a@b"), Curso("z", "d", 1))
         == InscripcionStr(Estudiante("x", "a@b"), Curso("y en z", "d", 1))
  {
  }

  const PerfilPrefix := "Perfil de "

  /** `Perfil.__str__`: "Perfil de <student name>". */
  function PerfilStr(estudiante: Estudiante): (s: string)
    ensures NombreDePerfilStr(s) == Some(estudiante.nombre)
  {
    var s := PerfilPrefix + estudiante.nombre;
    assert s[..|PerfilPrefix|] == PerfilPrefix;
    assert s[|PerfilPrefix|..] == estudiante.nombre;
    s
  }

  /** Recovers the student name from a profile's display string. */
  function NombreDePerfilStr(s: string): (r: Option<string>)
    ensures r.Some? <==> |s| >= |PerfilPrefix| && s[..|PerfilPrefix|] == PerfilPrefix
    ensures r.Some? ==> s == PerfilPrefix + r.value
  {
    if |s| >= |PerfilPrefix| && s[..|PerfilPrefix|] == PerfilPrefix then Some(s[|PerfilPrefix|..]) else None
  }

  /** Two profiles display alike exactly when their students have the same name. */
  lemma PerfilStrInjective(a: Estudiante, b: Estudiante)
    ensures PerfilStr(a) == PerfilStr(b) <==> a.nombre == b.nombre
  {
  }

  // ---------------------------------------------------------------------------
  // Relations over the tables

  /** Ids of the courses owned by professor `p` (`profesor.cursos`). */
  function CursosDe(cursos: map<nat, Curso>, p: nat): (ids: set<nat>)
    ensures ids <= cursos.Keys
    ensures forall c :: c in cursos ==> (c in ids <==> cursos[c].profesor == p)
  {
    set c | c in cursos && cursos[c].profesor == p
  }

  /** Ids of the enrollments whose course is in `cs`. */
  function InscripcionesEn(inscripciones: map<nat, Inscripcion>, cs: set<nat>): set<nat>
  {
    set i | i in inscripciones && inscripciones[i].curso in cs
  }

  /** Ids of the enrollments of student `e`: the rows that deleting the student
      removes with it. */
  function InscripcionesDe(inscripciones: map<nat, Inscripcion>, e: nat): set<nat>
  {
    set i | i in inscripciones && inscripciones[i].estudiante == e
  }

  /** `curso.estudiantes`: the students of the course's enrollments. */
  function EstudiantesDe(inscripciones: map<nat, Inscripcion>, c: nat): (es: set<nat>)
    ensures forall e :: e in es <==> PairTaken(inscripciones, e, c, None)
  {
    set i | i in inscripciones && inscripciones[i].curso == c :: inscripciones[i].estudiante
  }

  /** The courses a student is enrolled in. */
  function CursosDeEstudiante(inscripciones: map<nat, Inscripcion>, e: nat): (cs: set<nat>)
    ensures forall c :: c in cs <==> PairTaken(inscripciones, e, c, None)
  {
    set i | i in inscripciones && inscripciones[i].estudiante == e :: inscripciones[i].curso
  }

  predicate ProfesorEmailsUnique(profesores: map<nat, Profesor>)
  {
    forall a, b :: a in profesores && b in profesores && a != b ==> profesores[a].email != profesores[b].email
  }

  predicate EstudianteEmailsUnique(estudiantes: map<nat, Estudiante>)
  {
    forall a, b :: a in estudiantes && b in estudiantes && a != b ==> estudiantes[a].email != estudiantes[b].email
  }

  /** `unique_together = ('estudiante', 'curso')`. */
  predicate PairsUnique(inscripciones: map<nat, Inscripcion>)
  {
    forall i, j :: i in inscripciones && j in inscripciones && i != j ==>
      inscripciones[i].estudiante != inscripciones[j].estudiante || inscripciones[i].curso != inscripciones[j].curso
  }

  /** The enrollment table's invariant: ids below the counter, every row
      pointing at a student in `estudiantes` and a course in `cursos`, and
      no pair twice. */
  predicate InscripcionesValid(inscripciones: map<nat, Inscripcion>, estudiantes: set<nat>, cursos: set<nat>, next: nat)
  {
    && (forall i :: i in inscripciones ==>
          && 0 < i < next
          && inscripciones[i].estudiante in estudiantes && inscripciones[i].curso in cursos)
    && PairsUnique(inscripciones)
  }

  /** Writing a checked enrollment under an id below the counter keeps the invariant. */
  lemma InscripcionesValidSet(inscripciones: map<nat, Inscripcion>, estudiantes: set<nat>, cursos: set<nat>,
                              next: nat, k: nat, ins: Inscripcion, next': nat)
    requires InscripcionesValid(inscripciones, estudiantes, cursos, next)
    requires 0 < k < next' && next <= next'
    requires ins.estudiante in estudiantes && ins.curso in cursos
    requires !PairTaken(inscripciones, ins.estudiante, ins.curso, Some(k))
    ensures InscripcionesValid(inscripciones[k := ins], estudiantes, cursos, next')
  {
  }

  /** Removing enrollments keeps the pairs unique. */
  lemma PairsUniqueMinus(inscripciones: map<nat, Inscripcion>, ks: set<nat>)
    requires PairsUnique(inscripciones)
    ensures PairsUnique(inscripciones - ks)
  {
  }

  /** Some professor other than `self` already has `email`. */
  predicate ProfesorEmailTaken(profesores: map<nat, Profesor>, email: string, self: Option<nat>)
  {
    exists p :: p in profesores && Some(p) != self && profesores[p].email == email
  }

  /** Some student other than `self` already has `email`. */
  predicate EstudianteEmailTaken(estudiantes: map<nat, Estudiante>, email: string, self: Option<nat>)
  {
    exists e :: e in estudiantes && Some(e) != self && estudiantes[e].email == email
  }

  /** Some enrollment other than `self` already links `estudiante` to `curso`. */
  predicate PairTaken(inscripciones: map<nat, Inscripcion>, estudiante: nat, curso: nat, self: Option<nat>)
  {
    exists i :: i in inscripciones && Some(i) != self
      && inscripciones[i].estudiante == estudiante && inscripciones[i].curso == curso
  }

  /** The name and email of a professor or a student: both required. */
  predicate PersonaFits(nombre: string, email: string)
  {
    Required(nombre, NombreMax) && Required(email, EmailMax)
  }

  /** A course needs a name and a description (neither has `blank=True`). */
  predicate CursoFits(nombre: string, descripcion: string)
  {
    Required(nombre, NombreMax) && descripcion != ""
  }

  /** Every field of a profile may be blank; only the lengths are bounded. */
  predicate PerfilFits(foto: Option<string>, redes: string)
  {
    |redes| <= RedesMax && (foto.Some? ==> |foto.value| <= FotoMax)
  }

  /** Removing the courses of a professor shrinks the course table by exactly their number. */
  lemma {:induction false} CursosDeCount(cursos: map<nat, Curso>, p: nat)
    ensures |cursos - CursosDe(cursos, p)| == |cursos| - |CursosDe(cursos, p)|
  {
    var owned := CursosDe(cursos, p);
    var rest := cursos - owned;
    assert rest.Keys == cursos.Keys - owned;
    assert cursos.Keys == rest.Keys + owned;
    assert rest.Keys !! owned;
  }

  /** Under pair uniqueness a course has as many students as enrollments. */
  lemma {:induction false} EstudiantesDeCount(inscripciones: map<nat, Inscripcion>, c: nat)
    requires PairsUnique(inscripciones)
    ensures |EstudiantesDe(inscripciones, c)| == |InscripcionesEn(inscripciones, {c})|
    decreases |inscripciones|
  {
    var en := InscripcionesEn(inscripciones, {c});
    if en != {} {
      var i :| i in en;
      var rest := inscripciones - {i};
      EstudiantesDeCount(rest, c);
      assert InscripcionesEn(rest, {c}) == en - {i};
      var e := inscripciones[i].estudiante;
      assert e !in EstudiantesDe(rest, c);
      forall x | x in EstudiantesDe(inscripciones, c)
        ensures x in EstudiantesDe(rest, c) + {e}
      {
        var j :| j in inscripciones && inscripciones[j].curso == c && inscripciones[j].estudiante == x;
        if j != i {
          assert j in rest;
        }
      }
      assert EstudiantesDe(inscripciones, c) == EstudiantesDe(rest, c) + {e};
    } else {
      assert EstudiantesDe(inscripciones, c) == {};
    }
  }

  // ---------------------------------------------------------------------------
  // The store

  class Store {
    var profesores: map<nat, Profesor>
    var cursos: map<nat, Curso>
    var estudiantes: map<nat, Estudiante>
    var inscripciones: map<nat, Inscripcion>
    /** Keyed by the id of the profile's student (`primary_key=True`). */
    var perfiles: map<nat, Perfil>
    /** Next id of each autoincrement table; ids are never reused. */
    var nextProfesor: nat
    var nextCurso: nat
    var nextEstudiante: nat
    var nextInscripcion: nat

    /** Every row stays within its declared bounds, every foreign key names an
        existing row, and the unique columns and pairs are unique. */
    ghost predicate Valid()
      reads this
    {
      && 0 < nextProfesor && 0 < nextCurso && 0 < nextEstudiante && 0 < nextInscripcion
      && (forall p :: p in profesores ==> 0 < p < nextProfesor && PersonaFits(profesores[p].nombre, profesores[p].email))
      && (forall c :: c in cursos ==> 0 < c < nextCurso && CursoFits(cursos[c].nombre, cursos[c].descripcion))
      && (forall e :: e in estudiantes ==> 0 < e < nextEstudiante && PersonaFits(estudiantes[e].nombre, estudiantes[e].email))
      && (forall p :: p in perfiles ==> PerfilFits(perfiles[p].foto, perfiles[p].redes))
      && ProfesorEmailsUnique(profesores)
      && EstudianteEmailsUnique(estudiantes)
      && (forall c :: c in cursos ==> cursos[c].profesor in profesores)
      && InscripcionesValid(inscripciones, estudiantes.Keys, cursos.Keys, nextInscripcion)
      && perfiles.Keys <= estudiantes.Keys
    }

    constructor ()
      ensures Valid()
      ensures profesores == map[] && cursos == map[] && estudiantes == map[]
      ensures inscripciones == map[] && perfiles == map[]
      ensures nextProfesor == 1 && nextCurso == 1 && nextEstudiante == 1 && nextInscripcion == 1
    {
      profesores, cursos, estudiantes, inscripciones, perfiles := map[], map[], map[], map[], map[];
      nextProfesor, nextCurso, nextEstudiante, nextInscripcion := 1, 1, 1, 1;
    }

    // ----- Profesor

    method CreateProfesor(nombre: string, email: string) returns (r: Result<nat>)
      requires Valid()
      modifies this
      ensures Valid()
      ensures !PersonaFits(nombre, email) ==> r == Err(Invalid)
      ensures PersonaFits(nombre, email) && ProfesorEmailTaken(old(profesores), email, None) ==> r == Err(Duplicate)
      ensures r.Err? ==> unchanged(this)
      ensures r.Ok? <==> PersonaFits(nombre, email) && !ProfesorEmailTaken(old(profesores), email, None)
      ensures r.Ok? ==>
        && PersonaFits(nombre, email) && !ProfesorEmailTaken(old(profesores), email, None)
        && r.value == old(nextProfesor) && r.value !in old(profesores)
        && profesores == old(profesores)[r.value := Profesor(nombre, email)]
        && nextProfesor == old(nextProfesor) + 1
        && cursos == old(cursos) && estudiantes == old(estudiantes)
        && inscripciones == old(inscripciones) && perfiles == old(perfiles)
        && nextCurso == old(nextCurso) && nextEstudiante == old(nextEstudiante)
        && nextInscripcion == old(nextInscripcion)
    {
      if !PersonaFits(nombre, email) {
        return Err(Invalid);
      }
      if ProfesorEmailTaken(profesores, email, None) {
        return Err(Duplicate);
      }
      r := Ok(nextProfesor);
      profesores := profesores[nextProfesor := Profesor(nombre, email)];
      nextProfesor := nextProfesor + 1;
    }

    method UpdateProfesor(id: nat, nombre: string, email: string) returns (r: Outcome)
      requires Valid()
      modifies this
      ensures Valid()
      ensures id !in old(profesores) ==> r == Failed(NotFound)
      ensures id in old(profesores) && !PersonaFits(nombre, email) ==> r == Failed(Invalid)
      ensures (id in old(profesores) && PersonaFits(nombre, email)
               && ProfesorEmailTaken(old(profesores), email, Some(id))) ==> r == Failed(Duplicate)
      ensures r.Failed? ==> unchanged(this)
      ensures r.Done? <==> id in old(profesores) && PersonaFits(nombre, email) && !ProfesorEmailTaken(old(profesores), email, Some(id))
      ensures r.Done? ==>
        && id in old(profesores) && PersonaFits(nombre, email)
        && !ProfesorEmailTaken(old(profesores), email, Some(id))
        && profesores == old(profesores)[id := Profesor(nombre, email)]
        && cursos == old(cursos) && estudiantes == old(estudiantes)
        && inscripciones == old(inscripciones) && perfiles == old(perfiles)
        && nextProfesor == old(nextProfesor) && nextCurso == old(nextCurso)
        && nextEstudiante == old(nextEstudiante) && nextInscripcion == old(nextInscripcion)
    {
      if id !in profesores {
        return Failed(NotFound);
      }
      if !PersonaFits(nombre, email) {
        return Failed(Invalid);
      }
      if ProfesorEmailTaken(profesores, email, Some(id)) {
        return Failed(Duplicate);
      }
      profesores := profesores[id := Profesor(nombre, email)];
      r := Done;
    }

    /** Deletes a professor, its courses, and the enrollments of those courses. */
    method DeleteProfesor(id: nat) returns (r: Outcome)
      requires Valid()
      modifies this
      ensures Valid()
      ensures id !in old(profesores) ==> r == Failed(NotFound) && unchanged(this)
      ensures id in old(profesores) ==>
        && r == Done
        && profesores == old(profesores) - {id}
        && cursos == old(cursos) - CursosDe(old(cursos), id)
        && inscripciones == old(inscripciones) - InscripcionesEn(old(inscripciones), CursosDe(old(cursos), id))
        && estudiantes == old(estudiantes) && perfiles == old(perfiles)
        && nextProfesor == old(nextProfesor) && nextCurso == old(nextCurso)
        && nextEstudiante == old(nextEstudiante) && nextInscripcion == old(nextInscripcion)
    {
      if id !in profesores {
        return Failed(NotFound);
      }
      var owned := CursosDe(cursos, id);
      var cursos' := cursos - owned;
      var inscripciones' := inscripciones - InscripcionesEn(inscripciones, owned);
      var profesores' := profesores - {id};
      PairsUniqueMinus(inscripciones, InscripcionesEn(inscripciones, owned));
      inscripciones := inscripciones';
      cursos := cursos';
      profesores := profesores';
      r := Done;
    }

    // ----- Curso

    method CreateCurso(nombre: string, descripcion: string, profesor: nat) returns (r: Result<nat>)
      requires Valid()
      modifies this
      ensures Valid()
      ensures !CursoFits(nombre, descripcion) ==> r == Err(Invalid)
      ensures CursoFits(nombre, descripcion) && profesor !in old(profesores) ==> r == Err(BadRef)
      ensures r.Err? ==> unchanged(this)
      ensures r.Ok? <==> CursoFits(nombre, descripcion) && profesor in old(profesores)
      ensures r.Ok? ==>
        && CursoFits(nombre, descripcion) && profesor in old(profesores)
        && r.value == old(nextCurso) && r.value !in old(cursos)
        && cursos == old(cursos)[r.value := Curso(nombre, descripcion, profesor)]
        && nextCurso == old(nextCurso) + 1
        && profesores == old(profesores) && estudiantes == old(estudiantes)
        && inscripciones == old(inscripciones) && perfiles == old(perfiles)
        && nextProfesor == old(nextProfesor) && nextEstudiante == old(nextEstudiante)
        && nextInscripcion == old(nextInscripcion)
    {
      if !CursoFits(nombre, descripcion) {
        return Err(Invalid);
      }
      if profesor !in profesores {
        return Err(BadRef);
      }
      r := Ok(nextCurso);
      cursos := cursos[nextCurso := Curso(nombre, descripcion, profesor)];
      nextCurso := nextCurso + 1;
    }

    method UpdateCurso(id: nat, nombre: string, descripcion: string, profesor: nat) returns (r: Outcome)
      requires Valid()
      modifies this
      ensures Valid()
      ensures id !in old(cursos) ==> r == Failed(NotFound)
      ensures id in old(cursos) && !CursoFits(nombre, descripcion) ==> r == Failed(Invalid)
      ensures id in old(cursos) && CursoFits(nombre, descripcion) && profesor !in old(profesores) ==> r == Failed(BadRef)
      ensures r.Failed? ==> unchanged(this)
      ensures r.Done? <==> id in old(cursos) && CursoFits(nombre, descripcion) && profesor in old(profesores)
      ensures r.Done? ==>
        && id in old(cursos) && CursoFits(nombre, descripcion) && profesor in old(profesores)
        && cursos == old(cursos)[id := Curso(nombre, descripcion, profesor)]
        && profesores == old(profesores) && estudiantes == old(estudiantes)
        && inscripciones == old(inscripciones) && perfiles == old(perfiles)
        && nextProfesor == old(nextProfesor) && nextCurso == old(nextCurso)
        && nextEstudiante == old(nextEstudiante) && nextInscripcion == old(nextInscripcion)
    {
      if id !in cursos {
        return Failed(NotFound);
      }
      if !CursoFits(nombre, descripcion) {
        return Failed(Invalid);
      }
      if profesor !in profesores {
        return Failed(BadRef);
      }
      cursos := cursos[id := Curso(nombre, descripcion, profesor)];
      r := Done;
    }

    /** Deletes a course and the enrollments in it. */
    method DeleteCurso(id: nat) returns (r: Outcome)
      requires Valid()
      modifies this
      ensures Valid()
      ensures id !in old(cursos) ==> r == Failed(NotFound) && unchanged(this)
      ensures id in old(cursos) ==>
        && r == Done
        && cursos == old(cursos) - {id}
        && inscripciones == old(inscripciones) - InscripcionesEn(old(inscripciones), {id})
        && profesores == old(profesores) && estudiantes == old(estudiantes) && perfiles == old(perfiles)
        && nextProfesor == old(nextProfesor) && nextCurso == old(nextCurso)
        && nextEstudiante == old(nextEstudiante) && nextInscripcion == old(nextInscripcion)
    {
      if id !in cursos {
        return Failed(NotFound);
      }
      inscripciones := inscripciones - InscripcionesEn(inscripciones, {id});
      cursos := cursos - {id};
      r := Done;
    }

    // ----- Estudiante

    method CreateEstudiante(nombre: string, email: string) returns (r: Result<nat>)
      requires Valid()
      modifies this
      ensures Valid()
      ensures !PersonaFits(nombre, email) ==> r == Err(Invalid)
      ensures PersonaFits(nombre, email) && EstudianteEmailTaken(old(estudiantes), email, None) ==> r == Err(Duplicate)
      ensures r.Err? ==> unchanged(this)
      ensures r.Ok? <==> PersonaFits(nombre, email) && !EstudianteEmailTaken(old(estudiantes), email, None)
      ensures r.Ok? ==>
        && PersonaFits(nombre, email) && !EstudianteEmailTaken(old(estudiantes), email, None)
        && r.value == old(nextEstudiante) && r.value !in old(estudiantes)
        && estudiantes == old(estudiantes)[r.value := Estudiante(nombre, email)]
        && nextEstudiante == old(nextEstudiante) + 1
        && profesores == old(profesores) && cursos == old(cursos)
        && inscripciones == old(inscripciones) && perfiles == old(perfiles)
        && nextProfesor == old(nextProfesor) && nextCurso == old(nextCurso)
        && nextInscripcion == old(nextInscripcion)
    {
      if !PersonaFits(nombre, email) {
        return Err(Invalid);
      }
      if EstudianteEmailTaken(estudiantes, email, None) {
        return Err(Duplicate);
      }
      r := Ok(nextEstudiante);
      estudiantes := estudiantes[nextEstudiante := Estudiante(nombre, email)];
      nextEstudiante := nextEstudiante + 1;
    }

    method UpdateEstudiante(id: nat, nombre: string, email: string) returns (r: Outcome)
      requires Valid()
      modifies this
      ensures Valid()
      ensures id !in old(estudiantes) ==> r == Failed(NotFound)
      ensures id in old(estudiantes) && !PersonaFits(nombre, email) ==> r == Failed(Invalid)
      ensures (id in old(estudiantes) && PersonaFits(nombre, email)
               && EstudianteEmailTaken(old(estudiantes), email, Some(id))) ==> r == Failed(Duplicate)
      ensures r.Failed? ==> unchanged(this)
      ensures r.Done? <==> id in old(estudiantes) && PersonaFits(nombre, email) && !EstudianteEmailTaken(old(estudiantes), email, Some(id))
      ensures r.Done? ==>
        && id in old(estudiantes) && PersonaFits(nombre, email)
        && !EstudianteEmailTaken(old(estudiantes), email, Some(id))
        && estudiantes == old(estudiantes)[id := Estudiante(nombre, email)]
        && profesores == old(profesores) && cursos == old(cursos)
        && inscripciones == old(inscripciones) && perfiles == old(perfiles)
        && nextProfesor == old(nextProfesor) && nextCurso == old(nextCurso)
        && nextEstudiante == old(nextEstudiante) && nextInscripcion == old(nextInscripcion)
    {
      if id !in estudiantes {
        return Failed(NotFound);
      }
      if !PersonaFits(nombre, email) {
        return Failed(Invalid);
      }
      if EstudianteEmailTaken(estudiantes, email, Some(id)) {
        return Failed(Duplicate);
      }
      estudiantes := estudiantes[id := Estudiante(nombre, email)];
      r := Done;
    }

    /** Deletes a student, the student's enrollments and the student's profile. */
    method DeleteEstudiante(id: nat) returns (r: Outcome)
      requires Valid()
      modifies this
      ensures Valid()
      ensures id !in old(estudiantes) ==> r == Failed(NotFound) && unchanged(this)
      ensures id in old(estudiantes) ==>
        && r == Done
        && estudiantes == old(estudiantes) - {id}
        && inscripciones == old(inscripciones) - InscripcionesDe(old(inscripciones), id)
        && perfiles == old(perfiles) - {id}
        && profesores == old(profesores) && cursos == old(cursos)
        && nextProfesor == old(nextProfesor) && nextCurso == old(nextCurso)
        && nextEstudiante == old(nextEstudiante) && nextInscripcion == old(nextInscripcion)
    {
      if id !in estudiantes {
        return Failed(NotFound);
      }
      inscripciones := inscripciones - InscripcionesDe(inscripciones, id);
      perfiles := perfiles - {id};
      estudiantes := estudiantes - {id};
      r := Done;
    }

    // ----- Inscripcion

    /** Inserts an enrollment dated `hoy`. `estado` is a stored code and, when
        omitted, takes the field's default 'A'; `notaFinal` may be omitted. */
    method CreateInscripcion(estudiante: nat, curso: nat, hoy: Date, estado: Option<string>, notaFinal: Option<real>)
      returns (r: Result<nat>)
      requires Valid()
      modifies this
      ensures Valid()
      ensures estado.Some? && ParseEstado(estado.value).None? ==> r == Err(Invalid)
      ensures ((estado.None? || ParseEstado(estado.value).Some?)
               && (estudiante !in old(estudiantes) || curso !in old(cursos))) ==> r == Err(BadRef)
      ensures ((estado.None? || ParseEstado(estado.value).Some?)
               && estudiante in old(estudiantes) && curso in old(cursos)
               && PairTaken(old(inscripciones), estudiante, curso, None)) ==> r == Err(Duplicate)
      ensures r.Err? ==> unchanged(this)
      ensures r.Ok? <==> ((estado.None? || ParseEstado(estado.value).Some?)
               && estudiante in old(estudiantes) && curso in old(cursos)
               && !PairTaken(old(inscripciones), estudiante, curso, None))
      ensures r.Ok? ==>
        && r.value == old(nextInscripcion) && r.value !in old(inscripciones)
        && inscripciones == old(inscripciones)[r.value := Inscripcion(
             estudiante, curso, hoy, if estado.None? then Activo else ParseEstado(estado.value).value, notaFinal)]
        && nextInscripcion == old(nextInscripcion) + 1
        && profesores == old(profesores) && cursos == old(cursos)
        && estudiantes == old(estudiantes) && perfiles == old(perfiles)
        && nextProfesor == old(nextProfesor) && nextCurso == old(nextCurso)
        && nextEstudiante == old(nextEstudiante)
    {
      var e := Activo;
      if estado.Some? {
        var parsed := ParseEstado(estado.value);
        if parsed.None? {
          return Err(Invalid);
        }
        e := parsed.value;
      }
      if estudiante !in estudiantes || curso !in cursos {
        return Err(BadRef);
      }
      if PairTaken(inscripciones, estudiante, curso, None) {
        return Err(Duplicate);
      }
      r := Ok(nextInscripcion);
      PutInscripcion(nextInscripcion, Inscripcion(estudiante, curso, hoy, e, notaFinal), nextInscripcion + 1);
    }

    /** Stores `ins` under id `k` and moves the enrollment counter to `next`;
        the caller has checked the references and the pair. */
    method PutInscripcion(k: nat, ins: Inscripcion, next: nat)
      requires Valid()
      requires 0 < k < next && nextInscripcion <= next
      requires ins.estudiante in estudiantes && ins.curso in cursos
      requires !PairTaken(inscripciones, ins.estudiante, ins.curso, Some(k))
      modifies this
      ensures Valid()
      ensures inscripciones == old(inscripciones)[k := ins] && nextInscripcion == next
      ensures profesores == old(profesores) && cursos == old(cursos)
      ensures estudiantes == old(estudiantes) && perfiles == old(perfiles)
      ensures nextProfesor == old(nextProfesor) && nextCurso == old(nextCurso)
      ensures nextEstudiante == old(nextEstudiante)
    {
      InscripcionesValidSet(inscripciones, estudiantes.Keys, cursos.Keys, nextInscripcion, k, ins, next);
      inscripciones := inscripciones[k := ins];
      nextInscripcion := next;
    }

    /** Saves new field values into an enrollment; `estado` arrives as its stored
        code and must be one of the declared choices. The enrollment date is kept. */
    method UpdateInscripcion(id: nat, estudiante: nat, curso: nat, estado: string, notaFinal: Option<real>)
      returns (r: Outcome)
      requires Valid()
      modifies this
      ensures Valid()
      ensures id !in old(inscripciones) ==> r == Failed(NotFound)
      ensures id in old(inscripciones) && ParseEstado(estado).None? ==> r == Failed(Invalid)
      ensures (id in old(inscripciones) && ParseEstado(estado).Some?
               && (estudiante !in old(estudiantes) || curso !in old(cursos))) ==> r == Failed(BadRef)
      ensures (id in old(inscripciones) && ParseEstado(estado).Some?
               && estudiante in old(estudiantes) && curso in old(cursos)
               && PairTaken(old(inscripciones), estudiante, curso, Some(id))) ==> r == Failed(Duplicate)
      ensures r.Failed? ==> unchanged(this)
      ensures r.Done? <==> (id in old(inscripciones) && ParseEstado(estado).Some? && estudiante in old(estudiantes)
               && curso in old(cursos) && !PairTaken(old(inscripciones), estudiante, curso, Some(id)))
      ensures r.Done? ==>
        && inscripciones == old(inscripciones)[id := Inscripcion(
             estudiante, curso, old(inscripciones)[id].fechaInscripcion, ParseEstado(estado).value, notaFinal)]
        && profesores == old(profesores) && cursos == old(cursos)
        && estudiantes == old(estudiantes) && perfiles == old(perfiles)
        && nextProfesor == old(nextProfesor) && nextCurso == old(nextCurso)
        && nextEstudiante == old(nextEstudiante) && nextInscripcion == old(nextInscripcion)
    {
      if id !in inscripciones {
        return Failed(NotFound);
      }
      var e := ParseEstado(estado);
      if e.None? {
        return Failed(Invalid);
      }
      if estudiante !in estudiantes || curso !in cursos {
        return Failed(BadRef);
      }
      if PairTaken(inscripciones, estudiante, curso, Some(id)) {
        return Failed(Duplicate);
      }
      var fecha := inscripciones[id].fechaInscripcion;
      PutInscripcion(id, Inscripcion(estudiante, curso, fecha, e.value, notaFinal), nextInscripcion);
      r := Done;
    }

    method DeleteInscripcion(id: nat) returns (r: Outcome)
      requires Valid()
      modifies this
      ensures Valid()
      ensures id !in old(inscripciones) ==> r == Failed(NotFound) && unchanged(this)
      ensures id in old(inscripciones) ==>
        && r == Done
        && inscripciones == old(inscripciones) - {id}
        && profesores == old(profesores) && cursos == old(cursos)
        && estudiantes == old(estudiantes) && perfiles == old(perfiles)
        && nextProfesor == old(nextProfesor) && nextCurso == old(nextCurso)
        && nextEstudiante == old(nextEstudiante) && nextInscripcion == old(nextInscripcion)
    {
      if id !in inscripciones {
        return Failed(NotFound);
      }
      inscripciones := inscripciones - {id};
      r := Done;
    }

    // ----- Perfil

    /** Creates the profile of `estudiante`, stored under the student's id. */
    method CreatePerfil(estudiante: nat, biografia: string, foto: Option<string>, redes: string)
      returns (r: Result<nat>)
      requires Valid()
      modifies this
      ensures Valid()
      ensures !PerfilFits(foto, redes) ==> r == Err(Invalid)
      ensures PerfilFits(foto, redes) && estudiante !in old(estudiantes) ==> r == Err(BadRef)
      ensures (PerfilFits(foto, redes) && estudiante in old(estudiantes)
               && estudiante in old(perfiles)) ==> r == Err(Duplicate)
      ensures r.Err? ==> unchanged(this)
      ensures r.Ok? <==> PerfilFits(foto, redes) && estudiante in old(estudiantes) && estudiante !in old(perfiles)
      ensures r.Ok? ==>
        && PerfilFits(foto, redes) && estudiante in old(estudiantes) && estudiante !in old(perfiles)
        && r.value == estudiante
        && perfiles == old(perfiles)[estudiante := Perfil(biografia, foto, redes)]
        && profesores == old(profesores) && cursos == old(cursos)
        && estudiantes == old(estudiantes) && inscripciones == old(inscripciones)
        && nextProfesor == old(nextProfesor) && nextCurso == old(nextCurso)
        && nextEstudiante == old(nextEstudiante) && nextInscripcion == old(nextInscripcion)
    {
      if !PerfilFits(foto, redes) {
        return Err(Invalid);
      }
      if estudiante !in estudiantes {
        return Err(BadRef);
      }
      if estudiante in perfiles {
        return Err(Duplicate);
      }
      perfiles := perfiles[estudiante := Perfil(biografia, foto, redes)];
      r := Ok(estudiante);
    }

    method UpdatePerfil(estudiante: nat, biografia: string, foto: Option<string>, redes: string)
      returns (r: Outcome)
      requires Valid()
      modifies this
      ensures Valid()
      ensures estudiante !in old(perfiles) ==> r == Failed(NotFound)
      ensures estudiante in old(perfiles) && !PerfilFits(foto, redes) ==> r == Failed(Invalid)
      ensures r.Failed? ==> unchanged(this)
      ensures r.Done? <==> estudiante in old(perfiles) && PerfilFits(foto, redes)
      ensures r.Done? ==>
        && estudiante in old(perfiles) && PerfilFits(foto, redes)
        && perfiles == old(perfiles)[estudiante := Perfil(biografia, foto, redes)]
        && profesores == old(profesores) && cursos == old(cursos)
        && estudiantes == old(estudiantes) && inscripciones == old(inscripciones)
        && nextProfesor == old(nextProfesor) && nextCurso == old(nextCurso)
        && nextEstudiante == old(nextEstudiante) && nextInscripcion == old(nextInscripcion)
    {
      if estudiante !in perfiles {
        return Failed(NotFound);
      }
      if !PerfilFits(foto, redes) {
        return Failed(Invalid);
      }
      perfiles := perfiles[estudiante := Perfil(biografia, foto, redes)];
      r := Done;
    }

    method DeletePerfil(estudiante: nat) returns (r: Outcome)
      requires Valid()
      modifies this
      ensures Valid()
      ensures estudiante !in old(perfiles) ==> r == Failed(NotFound) && unchanged(this)
      ensures estudiante in old(perfiles) ==>
        && r == Done
        && perfiles == old(perfiles) - {estudiante}
        && profesores == old(profesores) && cursos == old(cursos)
        && estudiantes == old(estudiantes) && inscripciones == old(inscripciones)
        && nextProfesor == old(nextProfesor) && nextCurso == old(nextCurso)
        && nextEstudiante == old(nextEstudiante) && nextInscripcion == old(nextInscripcion)
    {
      if estudiante !in perfiles {
        return Failed(NotFound);
      }
      perfiles := perfiles - {estudiante};
      r := Done;
    }
  }
}
