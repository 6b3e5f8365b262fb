/** The validation script of the academic schema, replayed against the store:
    it creates professors, courses, students, enrollments and profiles,
    finishes one enrollment, deletes a professor, and reads back the
    relations and counts that the script reports. Each section of the script
    is a method whose contract gives the exact contents of the store after it;
    a create that failed could not reach those contents, so each section also
    shows that all of its creates succeed. */
module Validacion {
  import opened Results
  import opened Academico

  const Juan := Profesor("Juan Pérez", "juan.perez@example.com")
  const Ana := Profesor("Ana Gómez", "ana.gomez@example.com")
  const Python := Curso("Programación en Python", "Curso introductorio a Python.", 1)
  const Sql := Curso("Bases de Datos con SQL", "Curso sobre bases de datos relacionales.", 1)
  const Django := Curso("Desarrollo Web con Django", "Curso avanzado de Django.", 2)
  const Carlos := Estudiante("Carlos Ruiz", "carlos.ruiz@example.com")
  const Laura := Estudiante("Laura Méndez", "laura.mendez@example.com")
  const BioCarlos := "Apasionado por la tecnología y el desarrollo de software."
  const BioLaura := "Interesada en el diseño de bases de datos y la gestión de proyectos."

  /** The three enrollments as created on day `hoy`. */
  function Inscripciones(hoy: Date): map<nat, Inscripcion>
  {
    map[1 := Inscripcion(1, 1, hoy, Activo, None),
        2 := Inscripcion(2, 2, hoy, Activo, None),
        3 := Inscripcion(2, 3, hoy, Activo, None)]
  }

  /** What the script reports, step by step. Querysets without an ordering
      are reported as sets. */
  datatype Report = Report(
    cursosProfesor1: set<string>,       // names of profesor1.cursos
    cursosProfesor2: set<string>,       // names of profesor2.cursos
    estudiantesCurso1: set<string>,     // student names of curso1's enrollments
    cursosEstudiante2: set<string>,     // course names of estudiante2's enrollments
    estadoInscripcion1: string,         // get_estado_display() after the save
    notaInscripcion1: Option<real>,
    estadosOtras: seq<string>,          // the states of inscripcion2 and inscripcion3
    biografiaPerfil1: string,           // estudiante1.perfil.biografia
    cursosProfesor1Antes: nat,          // profesor1.cursos.count() before the delete
    cursosAntes: nat,                   // Curso.objects.count() before the delete
    cursosDespues: nat,                 // Curso.objects.count() after the delete
    cursosRestantes: set<string>,       // names of Curso.objects.all() after the delete
    inscripcionesRestantes: set<nat>)   // ids of the enrollments left after the delete

  /** Names of the courses with the given ids. */
  function NombresCursos(cursos: map<nat, Curso>, ids: set<nat>): set<string>
  {
    set c | c in ids && c in cursos :: cursos[c].nombre
  }

  /** Names of the students with the given ids. */
  function NombresEstudiantes(estudiantes: map<nat, Estudiante>, ids: set<nat>): set<string>
  {
    set e | e in ids && e in estudiantes :: estudiantes[e].nombre
  }

  // ---------------------------------------------------------------------------
  // The store after each section of the script

  const Profesores := map[1 := Juan, 2 := Ana]
  const Cursos := map[1 := Python, 2 := Sql, 3 := Django]
  const Estudiantes := map[1 := Carlos, 2 := Laura]
  const Perfiles := map[1 := Perfil(BioCarlos, None, ""), 2 := Perfil(BioLaura, None, "")]

  /** The enrollments after 4.3: the first one finished with 8.5. */
  function Calificadas(hoy: Date): map<nat, Inscripcion>
  {
    Inscripciones(hoy)[1 := Inscripcion(1, 1, hoy, Finalizado, Some(8.5))]
  }

  ghost predicate Empty(s: Store)
    reads s
  {
    && s.Valid()
    && s.profesores == map[] && s.cursos == map[] && s.estudiantes == map[]
    && s.inscripciones == map[] && s.perfiles == map[]
    && s.nextProfesor == 1 && s.nextCurso == 1 && s.nextEstudiante == 1 && s.nextInscripcion == 1
  }

  ghost predicate AfterProfesores(s: Store)
    reads s
  {
    && s.Valid()
    && s.profesores == Profesores && s.cursos == map[] && s.estudiantes == map[]
    && s.inscripciones == map[] && s.perfiles == map[]
    && s.nextCurso == 1 && s.nextEstudiante == 1 && s.nextInscripcion == 1
  }

  ghost predicate AfterCursos(s: Store)
    reads s
  {
    && s.Valid()
    && s.profesores == Profesores && s.cursos == Cursos && s.estudiantes == map[]
    && s.inscripciones == map[] && s.perfiles == map[]
    && s.nextEstudiante == 1 && s.nextInscripcion == 1
  }

  ghost predicate AfterEstudiantes(s: Store)
    reads s
  {
    && s.Valid()
    && s.profesores == Profesores && s.cursos == Cursos && s.estudiantes == Estudiantes
    && s.inscripciones == map[] && s.perfiles == map[] && s.nextInscripcion == 1
  }

  ghost predicate AfterInscripcion1(s: Store, hoy: Date)
    reads s
  {
    && s.Valid()
    && s.profesores == Profesores && s.cursos == Cursos && s.estudiantes == Estudiantes
    && s.inscripciones == map[1 := Inscripcion(1, 1, hoy, Activo, None)] && s.perfiles == map[]
    && s.nextInscripcion == 2
  }

  ghost predicate AfterInscripciones(s: Store, hoy: Date)
    reads s
  {
    && s.Valid()
    && s.profesores == Profesores && s.cursos == Cursos && s.estudiantes == Estudiantes
    && s.inscripciones == Inscripciones(hoy) && s.perfiles == map[]
  }

  ghost predicate AfterNota(s: Store, hoy: Date)
    reads s
  {
    && s.Valid()
    && s.profesores == Profesores && s.cursos == Cursos && s.estudiantes == Estudiantes
    && s.inscripciones == Calificadas(hoy) && s.perfiles == map[]
  }

  ghost predicate AfterPerfiles(s: Store, hoy: Date)
    reads s
  {
    && s.Valid()
    && s.profesores == Profesores && s.cursos == Cursos && s.estudiantes == Estudiantes
    && s.inscripciones == Calificadas(hoy) && s.perfiles == Perfiles
  }

  ghost predicate AfterDelete(s: Store, hoy: Date)
    reads s
  {
    && s.Valid()
    && s.profesores == map[2 := Ana] && s.cursos == map[3 := Django] && s.estudiantes == Estudiantes
    && s.inscripciones == map[3 := Inscripcion(2, 3, hoy, Activo, None)] && s.perfiles == Perfiles
  }

  // ---------------------------------------------------------------------------
  // Facts about the concrete tables

  /** After 4.1 the professors own exactly the courses the script gave them. */
  lemma CursosDeProfesores()
    ensures CursosDe(Cursos, 1) == {1, 2}
    ensures CursosDe(Cursos, 2) == {3}
    ensures NombresCursos(Cursos, {1, 2}) == {Python.nombre, Sql.nombre}
    ensures NombresCursos(Cursos, {3}) == {Django.nombre}
  {
  }

  /** After 4.2 curso1 has exactly Carlos, and Laura has exactly SQL and Django. */
  lemma InscripcionesQueries(hoy: Date)
    ensures EstudiantesDe(Inscripciones(hoy), 1) == {1}
    ensures CursosDeEstudiante(Inscripciones(hoy), 2) == {2, 3}
    ensures NombresEstudiantes(Estudiantes, {1}) == {Carlos.nombre}
    ensures NombresCursos(Cursos, {2, 3}) == {Sql.nombre, Django.nombre}
  {
    var m := Inscripciones(hoy);
    assert m.Keys == {1, 2, 3};
    assert m[1].curso == 1 && m[2].curso == 2 && m[3].curso == 3;
    assert m[1].estudiante == 1 && m[2].estudiante == 2 && m[3].estudiante == 2;
  }

  /** The enrollments on profesor1's two courses are the first two. */
  lemma EnCursosProfesor1(hoy: Date)
    ensures InscripcionesEn(Calificadas(hoy), {1, 2}) == {1, 2}
  {
    var m := Calificadas(hoy);
    assert m.Keys == {1, 2, 3};
    assert m[1].curso == 1 && m[2].curso == 2 && m[3].curso == 3;
  }

  /** Deleting the first professor leaves only the third course: 3 courses
      before, 1 after. */
  lemma CascadeCursos()
    ensures Profesores - {1} == map[2 := Ana]
    ensures Cursos - CursosDe(Cursos, 1) == map[3 := Django]
    ensures |Cursos| == 3 && |map[3 := Django]| == 1
    ensures NombresCursos(map[3 := Django], {3}) == {Django.nombre}
  {
    CursosDeProfesores();
    assert Cursos.Keys == {1, 2, 3};
    assert (Cursos - {1, 2}).Keys == {3};
  }

  /** Deleting the first professor leaves only the enrollment on the third course. */
  lemma CascadeInscripciones(hoy: Date)
    ensures Calificadas(hoy) - InscripcionesEn(Calificadas(hoy), CursosDe(Cursos, 1))
         == map[3 := Inscripcion(2, 3, hoy, Activo, None)]
  {
    CursosDeProfesores();
    EnCursosProfesor1(hoy);
    assert (Calificadas(hoy) - {1, 2}).Keys == {3};
  }

  // ---------------------------------------------------------------------------
  // The sections of the script

  /** 4.1: two professors, two courses for the first and one for the second;
      returns the course names of each professor. */
  method CrearProfesoresYCursos(store: Store) returns (cursosProfesor1: set<string>, cursosProfesor2: set<string>)
    requires Empty(store)
    modifies store
    ensures AfterCursos(store)
    ensures cursosProfesor1 == {Python.nombre, Sql.nombre}
    ensures cursosProfesor2 == {Django.nombre}
  {
    CrearProfesores(store);
    CrearCursos(store);
    CursosDeProfesores();
    cursosProfesor1 := NombresCursos(store.cursos, CursosDe(store.cursos, 1));
    cursosProfesor2 := NombresCursos(store.cursos, CursosDe(store.cursos, 2));
  }

  /** Juan, then Ana. */
  method CrearProfesores(store: Store)
    requires Empty(store)
    modifies store
    ensures AfterProfesores(store)
  {
    var r1 := store.CreateProfesor(Juan.nombre, Juan.email);
    assert r1 == Ok(1);
    var r2 := store.CreateProfesor(Ana.nombre, Ana.email);
    assert r2 == Ok(2);
  }

  /** Two courses for Juan, one for Ana. */
  method CrearCursos(store: Store)
    requires AfterProfesores(store)
    modifies store
    ensures AfterCursos(store)
  {
    var c1 := store.CreateCurso(Python.nombre, Python.descripcion, 1);
    assert c1 == Ok(1);
    var c2 := store.CreateCurso(Sql.nombre, Sql.descripcion, 1);
    assert c2 == Ok(2);
    var c3 := store.CreateCurso(Django.nombre, Django.descripcion, 2);
    assert c3 == Ok(3);
  }

  /** 4.2, first half: two students. */
  method CrearEstudiantes(store: Store)
    requires AfterCursos(store)
    modifies store
    ensures AfterEstudiantes(store)
  {
    var e1 := store.CreateEstudiante(Carlos.nombre, Carlos.email);
    assert e1 == Ok(1);
    var e2 := store.CreateEstudiante(Laura.nombre, Laura.email);
    assert e2 == Ok(2);
  }

  /** 4.2, second half: Carlos in Python, then Laura in SQL and in Django,
      each with the default state and no grade. */
  method Inscribir(store: Store, hoy: Date)
    requires AfterEstudiantes(store)
    modifies store
    ensures AfterInscripciones(store, hoy)
  {
    InscribirCarlos(store, hoy);
    InscribirLaura(store, hoy);
  }

  /** Carlos in Python. */
  method InscribirCarlos(store: Store, hoy: Date)
    requires AfterEstudiantes(store)
    modifies store
    ensures AfterInscripcion1(store, hoy)
  {
    var i1 := store.CreateInscripcion(1, 1, hoy, None, None);
    assert i1 == Ok(1);
  }

  /** Laura in SQL and in Django. */
  method InscribirLaura(store: Store, hoy: Date)
    requires AfterInscripcion1(store, hoy)
    modifies store
    ensures AfterInscripciones(store, hoy)
  {
    var i2 := store.CreateInscripcion(2, 2, hoy, None, None);
    assert i2 == Ok(2);
    var i3 := store.CreateInscripcion(2, 3, hoy, None, None);
    assert i3 == Ok(3);
  }

  /** 4.2, the listings: the students of curso1 and the courses of Laura. */
  method ListarInscripciones(store: Store, hoy: Date) returns (estudiantesCurso1: set<string>, cursosEstudiante2: set<string>)
    requires AfterInscripciones(store, hoy)
    ensures estudiantesCurso1 == {Carlos.nombre}
    ensures cursosEstudiante2 == {Sql.nombre, Django.nombre}
  {
    InscripcionesQueries(hoy);
    estudiantesCurso1 := NombresEstudiantes(store.estudiantes, EstudiantesDe(store.inscripciones, 1));
    cursosEstudiante2 := NombresCursos(store.cursos, CursosDeEstudiante(store.inscripciones, 2));
  }

  /** 4.3: `inscripcion1.estado = 'F'`, `nota_final = 8.5`, `save()`; returns
      the displayed state and grade, and the states of the other two. */
  method FinalizarInscripcion(store: Store, hoy: Date) returns (estado: string, nota: Option<real>, otras: seq<string>)
    requires AfterInscripciones(store, hoy)
    modifies store
    ensures AfterNota(store, hoy)
    ensures estado == "Finalizado" && nota == Some(8.5)
    ensures otras == ["Activo", "Activo"]
  {
    var r := store.UpdateInscripcion(1, 1, 1, "F", Some(8.5));
    assert r == Done;
    estado := Label(store.inscripciones[1].estado);
    nota := store.inscripciones[1].notaFinal;
    otras := [Label(store.inscripciones[2].estado), Label(store.inscripciones[3].estado)];
  }

  /** 4.4: a profile for each student; returns Carlos's biography read
      through his profile. */
  method CrearPerfiles(store: Store, hoy: Date) returns (biografia: string)
    requires AfterNota(store, hoy)
    modifies store
    ensures AfterPerfiles(store, hoy)
    ensures biografia == BioCarlos
  {
    var p1 := store.CreatePerfil(1, BioCarlos, None, "");
    assert p1 == Ok(1);
    var p2 := store.CreatePerfil(2, BioLaura, None, "");
    assert p2 == Ok(2);
    biografia := store.perfiles[1].biografia;
  }

  /** 4.5, before the delete: profesor1's course count and the total. */
  method ContarAntes(store: Store, hoy: Date) returns (cursosProfesor1: nat, antes: nat)
    requires AfterPerfiles(store, hoy)
    ensures cursosProfesor1 == 2 && antes == 3
  {
    CursosDeProfesores();
    CascadeCursos();
    cursosProfesor1 := |CursosDe(store.cursos, 1)|;
    antes := |store.cursos|;
  }

  /** 4.5: deleting the first professor takes its two courses and their two
      enrollments with it. */
  method EliminarProfesor1(store: Store, hoy: Date)
    requires AfterPerfiles(store, hoy)
    modifies store
    ensures AfterDelete(store, hoy)
  {
    CascadeCursos();
    CascadeInscripciones(hoy);
    var r := store.DeleteProfesor(1);
  }

  /** 4.5, after the delete: the course count, the names left, and the
      enrollments left. */
  method ContarDespues(store: Store, hoy: Date) returns (despues: nat, restantes: set<string>, inscripciones: set<nat>)
    requires AfterDelete(store, hoy)
    ensures despues == 1
    ensures restantes == {Django.nombre}
    ensures inscripciones == {3}
  {
    CascadeCursos();
    despues := |store.cursos|;
    restantes := NombresCursos(store.cursos, store.cursos.Keys);
    inscripciones := store.inscripciones.Keys;
  }

  /** What one run of the script on an empty database reports. */
  const Esperado := Report(
    {Python.nombre, Sql.nombre}, {Django.nombre}, {Carlos.nombre}, {Sql.nombre, Django.nombre},
    "Finalizado", Some(8.5), ["Activo", "Activo"], BioCarlos, 2, 3, 1, {Django.nombre}, {3})

  /** The script on a given empty store; `hoy` is the date the clock gives
      the enrollments. */
  method Ejecutar(store: Store, hoy: Date) returns (report: Report)
    requires Empty(store)
    modifies store
    ensures AfterDelete(store, hoy)
    ensures report == Esperado
  {
    var cursosProfesor1, cursosProfesor2 := CrearProfesoresYCursos(store);
    CrearEstudiantes(store);
    Inscribir(store, hoy);
    var estudiantesCurso1, cursosEstudiante2 := ListarInscripciones(store, hoy);
    var estado, nota, otras := FinalizarInscripcion(store, hoy);
    var biografia := CrearPerfiles(store, hoy);
    var antesProfesor1, antes := ContarAntes(store, hoy);
    EliminarProfesor1(store, hoy);
    var despues, restantes, inscripciones := ContarDespues(store, hoy);
    report := Report(
      cursosProfesor1, cursosProfesor2, estudiantesCurso1, cursosEstudiante2,
      estado, nota, otras, biografia, antesProfesor1, antes, despues, restantes, inscripciones);
  }

  /** One run of the script on an empty database. */
  method Run(hoy: Date) returns (report: Report)
    ensures report.cursosProfesor1 == {Python.nombre, Sql.nombre}
    ensures report.cursosProfesor2 == {Django.nombre}
    ensures report.estudiantesCurso1 == {Carlos.nombre}
    ensures report.cursosEstudiante2 == {Sql.nombre, Django.nombre}
    ensures report.estadoInscripcion1 == "Finalizado" && report.notaInscripcion1 == Some(8.5)
    ensures report.estadosOtras == ["Activo", "Activo"]
    ensures report.biografiaPerfil1 == BioCarlos
    ensures report.cursosProfesor1Antes == 2
    ensures report.cursosAntes == 3 && report.cursosDespues == 1
    ensures report.cursosRestantes == {Django.nombre}
    ensures report.inscripcionesRestantes == {3}
  {
    var store := new Store();
    report := Ejecutar(store, hoy);
  }

  /** The script as the module is meant to be used: importing it runs `run()`
      once, and calling `run()` afterwards runs it again on the same database.
      The second run creates Juan again (he was deleted), but Ana survived the
      first run, so creating her breaks the unique email and the second run
      stops there. */
  method ImportarYEjecutar(hoy: Date) returns (primero: Report, juan: Result<nat>, ana: Result<nat>)
    ensures primero == Esperado
    ensures juan.Ok?
    ensures ana == Err(Duplicate)
  {
    var store := new Store();
    primero := Ejecutar(store, hoy);
    assert store.profesores == map[2 := Ana];
    juan := store.CreateProfesor(Juan.nombre, Juan.email);
    assert !ProfesorEmailTaken(map[2 := Ana], Juan.email, None);
    assert store.profesores.Keys == {2, juan.value};
    assert store.profesores[2] == Ana;
    ana := store.CreateProfesor(Ana.nombre, Ana.email);
  }
}
