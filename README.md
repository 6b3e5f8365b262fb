# Academic and catalog schemas, modelled in Dafny

This project models two Django model schemas and the script that exercises one of them.

- **Academic schema** (`academico/models.py`):
  - professors, with unique emails, own courses through a cascading foreign key;
  - students have unique emails;
  - enrollments (`Inscripcion`) link a student to a course, with:
    - an `estado` drawn from the choices `'A'`/`'F'`;
    - an optional `nota_final`;
    - a creation date;
    - a unique `(estudiante, curso)` pair;
  - a student has at most one `Perfil`, keyed by the student's id.
- **Catalog schema** (`productos/models.py`):
  - a category owns products;
  - products and tags (`Etiquetas`) are linked many-to-many;
  - a product has at most one `DetalleProducto`;
  - `precio` and `peso` are bounded fixed-point decimals.
- **The validation script** (`validacion.py`): `run()` creates rows, updates one enrollment, deletes a professor, and prints relations and counts.

## How the model is structured

Each schema is a class. Every table is a `map<nat, Record>` with an autoincrement counter for its ids, with two exceptions:

- the profile table is a map with no counter, because a profile is keyed by its student's id;
- the product–tag link table is a set of `(product, tag)` pairs with no id, so a pair is present at most once. Django gives that table's rows their own autoincrement id and a unique `(producto, etiquetas)` pair.

The two classes are:

- `Academico.Store` for the academic schema;
- `Productos.Catalog` for the catalog schema.

Each class has a `Valid()` invariant. It states:

- every key is below its table's counter;
- required text is not blank, and text lengths and decimal bounds hold;
- every foreign key and link names an existing row;
- the unique columns and pairs are unique.

The enrollment and detail parts of `Valid()` are stated on values, as `Academico.InscripcionesValid` and `Productos.DetallesValid`. The create and update methods of those two tables share one write step each, `PutInscripcion` and `PutDetalle`.

Every `Create…`, `Update…` and `Delete…` method requires and ensures `Valid()`. Each returns either success or an `Error`:

| error | meaning |
|---|---|
| `Duplicate` | a unique column or pair clashes |
| `NotFound` | the row being updated or deleted is missing |
| `BadRef` | a foreign key names a missing row |
| `Invalid` | a required field is blank, or a length, decimal bound or choice is violated |

Each method's contract gives:

- the exact condition for success (an if-and-only-if);
- the error chosen in each failing case, in the order the checks run;
- that a failure changes nothing;
- the whole new state on success.

Deletes remove exactly the rows that `on_delete=models.CASCADE` reaches, and nothing else.

A field without `blank=True` must not be empty (`Columns.Required`).

Decimal amounts are integer hundredths. `Decimal.FitsDecimal` is Django's `DecimalValidator` rule: at most `max_digits - decimal_places` digits before the point.

`Validacion` replays `run()` on an empty `Store`. Each numbered section of the script (4.1 to 4.5) is one or more methods. 4.2 is split into the student creates, the enrollment creates and the listings. 4.5 is split into the counts before, the delete, and the counts and listings after. Each method:

- has a precondition and a postcondition that are predicates giving the exact contents of the store before and after it;
- returns the values that part of the section prints.

`Validacion.Ejecutar` chains the sections on a given empty store. `Validacion.Run` runs it once on a new store; its postcondition states every listing and count the script reports. `Validacion.ImportarYEjecutar` runs the script twice, as the module's usage note leads to (see Findings).

## Model

Paths are relative to the repository root.

| member | source | states |
|---|---|---|
| Decimal.Digits | m7-ev-modulo/productos/models.py:34 | the decimal digit count `d` of `n`: `n < 10^d`, `10^(d-1) <= n` when `d > 0`, and `d == 0` exactly for `n == 0` |
| Decimal.DigitsAtMost | m7-ev-modulo/productos/models.py:34 | `n` has at most `k` digits if and only if `n < 10^k` |
| Decimal.ShiftDigits | m7-ev-modulo/productos/models.py:34 | dropping `k` trailing digits leaves at most `w` digits if and only if the number had at most `k + w` |
| Decimal.FitsDecimal | m7-ev-modulo/productos/models.py:34 | a value in units of `10^-places` passes the `max_digits`/`decimal_places` whole-digit check if and only if its magnitude is below `10^max_digits` |
| Productos.PrecioBound | m7-ev-modulo/productos/models.py:34 | `precio` (10 digits, 2 places) fits if and only if it lies strictly between -10^10 and 10^10 hundredths |
| Productos.PesoBound | m7-ev-modulo/productos/models.py:74 | `peso` (6 digits, 2 places) fits if and only if it lies strictly between -10^6 and 10^6 hundredths |
| Productos.NombreDeDetalleStr | m7-ev-modulo/productos/models.py:77-78 | returns a name exactly when the string starts with "Detalle de ", and the string is that prefix followed by the returned name |
| Productos.DetalleStr | m7-ev-modulo/productos/models.py:77-78 | `DetalleProducto.__str__`: reading the product name back from the display string gives exactly the product's name |
| Productos.EtiquetasDe | m7-ev-modulo/productos/models.py:36 | `producto.etiquetas`: a tag is among a product's tags if and only if the pair is in the link table |
| Productos.Catalog.constructor | m7-ev-modulo/productos/models.py:32-75 | an empty catalog satisfies the invariant and all counters start at 1 |
| Productos.Catalog.CreateCategoria | m7-ev-modulo/productos/models.py:47-48 | succeeds if and only if the name is not blank and has at most 100 characters; the new row takes the next id and nothing else changes |
| Productos.Catalog.UpdateCategoria | m7-ev-modulo/productos/models.py:47-48 | fails with NotFound for a missing id and Invalid for a blank or long name, changing nothing; otherwise replaces only that row |
| Productos.Catalog.DeleteCategoria | m7-ev-modulo/productos/models.py:35 | removes the category, exactly its products, their details and their tag links; tags and other categories' products are untouched |
| Productos.Catalog.CreateEtiqueta | m7-ev-modulo/productos/models.py:59-60 | succeeds if and only if the tag name is not blank and has at most 50 characters; the new row takes the next id |
| Productos.Catalog.UpdateEtiqueta | m7-ev-modulo/productos/models.py:59-60 | NotFound or Invalid without change; otherwise replaces only that tag |
| Productos.Catalog.DeleteEtiqueta | m7-ev-modulo/productos/models.py:36 | removes the tag and only the links that mention it; all products and details remain |
| Productos.Catalog.CreateProducto | m7-ev-modulo/productos/models.py:32-35 | Invalid for a blank or long name or an out-of-range price, BadRef for a missing category; on success adds exactly the new product |
| Productos.Catalog.UpdateProducto | m7-ev-modulo/productos/models.py:32-35 | NotFound, Invalid or BadRef without change; otherwise replaces only that product |
| Productos.Catalog.DeleteProducto | m7-ev-modulo/productos/models.py:72 | removes the product, its detail if any and its tag links, and no tag |
| Productos.Catalog.AddEtiqueta | m7-ev-modulo/productos/models.py:36 | NotFound for a missing product, BadRef for a missing tag; otherwise the product's tags gain the tag, the links become the old links plus the pair, and an already-linked pair leaves the links as they were |
| Productos.Catalog.RemoveEtiqueta | m7-ev-modulo/productos/models.py:36 | NotFound for a missing product; otherwise the product's tags lose the tag and the links lose exactly that pair |
| Productos.Catalog.CreateDetalle | m7-ev-modulo/productos/models.py:71-75 | Invalid for blank or long text or an out-of-range weight, BadRef for a missing product, Duplicate when the product already has a detail; on success adds exactly the new detail |
| Productos.Catalog.UpdateDetalle | m7-ev-modulo/productos/models.py:71-75 | the same checks, where only a different detail of the same product is a duplicate |
| Productos.Catalog.DeleteDetalle | m7-ev-modulo/productos/models.py:71-72 | removes exactly that detail |
| Productos.Catalog.DetalleDisplay | m7-ev-modulo/productos/models.py:77-78 | the display string of a stored detail names its product |
| Academico.Codigo | m7-ae3-grupal/gestion_academica/academico/models.py:29-32 | a stored code is one character long and is "A" or "F" |
| Academico.Label | m7-ae3-grupal/gestion_academica/academico/models.py:29-32 | `get_estado_display`: the label is the one the choice list pairs with the state's code |
| Academico.ParseEstado | m7-ae3-grupal/gestion_academica/academico/models.py:29-36 | a stored code is a state if and only if it is "A" or "F", and the state's code is the code read |
| Academico.CodigoRoundTrip | m7-ae3-grupal/gestion_academica/academico/models.py:29-32 | every state's code is one character long and reads back as that state |
| Academico.ChoicesInjective | m7-ae3-grupal/gestion_academica/academico/models.py:29-32 | two states share a code, or a label, only if they are the same state |
| Academico.InscripcionStr | m7-ae3-grupal/gestion_academica/academico/models.py:42-43 | the string's three parts sit at the offsets the two names fix: the student name, " en ", then the course name; what it determines is stated by the next three lemmas |
| Academico.InscripcionStrCurso | m7-ae3-grupal/gestion_academica/academico/models.py:42-43 | for one student, two enrollments display alike if and only if their courses have the same name |
| Academico.InscripcionStrEstudiante | m7-ae3-grupal/gestion_academica/academico/models.py:42-43 | for one course, two enrollments display alike if and only if their students have the same name |
| Academico.InscripcionStrAmbiguous | m7-ae3-grupal/gestion_academica/academico/models.py:42-43 | the display alone does not determine the pair: "x en y" in "z" and "x" in "y en z" display alike |
| Academico.PerfilStr | m7-ae3-grupal/gestion_academica/academico/models.py:52-53 | `Perfil.__str__`: reading the student name back from the display string gives exactly the student's name |
| Academico.NombreDePerfilStr | m7-ae3-grupal/gestion_academica/academico/models.py:52-53 | returns a name exactly when the string starts with "Perfil de ", and the string is that prefix followed by the returned name |
| Academico.PerfilStrInjective | m7-ae3-grupal/gestion_academica/academico/models.py:52-53 | two profiles display alike if and only if their students have the same name |
| Academico.CursosDe | m7-ae3-grupal/gestion_academica/academico/models.py:14 | `profesor.cursos`: the ids of exactly those courses whose professor is `p` |
| Academico.EstudiantesDe | m7-ae3-grupal/gestion_academica/academico/models.py:15 | `curso.estudiantes`: a student is among a course's students if and only if some enrollment links the two |
| Academico.CursosDeEstudiante | m7-ae3-grupal/gestion_academica/academico/models.py:15 | a course is among a student's enrollment courses if and only if some enrollment links the two |
| Academico.CursosDeCount | m7-ae3-grupal/gestion_academica/academico/models.py:14 | removing a professor's courses shrinks the course table by exactly the number of those courses |
| Academico.EstudiantesDeCount | m7-ae3-grupal/gestion_academica/academico/models.py:15 | when pairs are unique, a course has exactly as many students (`curso.estudiantes`) as enrollments |
| Academico.Store.constructor | m7-ae3-grupal/gestion_academica/academico/models.py:4-50 | an empty store satisfies the invariant and all counters start at 1 |
| Academico.Store.CreateProfesor | m7-ae3-grupal/gestion_academica/academico/models.py:4-6 | succeeds if and only if the name and email are not blank and fit their lengths, and no professor has the email; Duplicate otherwise, with nothing changed |
| Academico.Store.UpdateProfesor | m7-ae3-grupal/gestion_academica/academico/models.py:4-6 | NotFound, Invalid, or Duplicate when another professor has the email, each without change; otherwise replaces only that row |
| Academico.Store.DeleteProfesor | m7-ae3-grupal/gestion_academica/academico/models.py:14 | removes the professor, exactly the courses whose professor it is, and exactly the enrollments of those courses; students and profiles are untouched |
| Academico.Store.CreateCurso | m7-ae3-grupal/gestion_academica/academico/models.py:11-14 | Invalid for a blank or long name or a blank description, BadRef for a missing professor; on success adds exactly the new course |
| Academico.Store.UpdateCurso | m7-ae3-grupal/gestion_academica/academico/models.py:11-14 | NotFound, Invalid or BadRef without change; otherwise replaces only that course |
| Academico.Store.DeleteCurso | m7-ae3-grupal/gestion_academica/academico/models.py:34 | removes the course and exactly the enrollments that reference it |
| Academico.Store.CreateEstudiante | m7-ae3-grupal/gestion_academica/academico/models.py:21-23 | succeeds if and only if the name and email are not blank and fit their lengths, and no student has the email; otherwise nothing changes |
| Academico.Store.UpdateEstudiante | m7-ae3-grupal/gestion_academica/academico/models.py:21-23 | NotFound, Invalid, or Duplicate when another student has the email, each without change |
| Academico.Store.DeleteEstudiante | m7-ae3-grupal/gestion_academica/academico/models.py:33 | removes the student, exactly its enrollments, and its profile (whose cascade is declared at line 47) |
| Academico.Store.CreateInscripcion | m7-ae3-grupal/gestion_academica/academico/models.py:33-40 | Invalid for a given state code outside the choices, BadRef for a missing student or course, Duplicate for a taken pair; on success the new enrollment carries the given date and grade, and the given state or else the default 'A' (Activo) |
| Academico.Store.UpdateInscripcion | m7-ae3-grupal/gestion_academica/academico/models.py:33-40 | NotFound, Invalid for a code outside the choices, BadRef, or Duplicate when another enrollment has the pair; on success the creation date is kept |
| Academico.Store.DeleteInscripcion | m7-ae3-grupal/gestion_academica/academico/models.py:28-40 | removes exactly that enrollment |
| Academico.Store.CreatePerfil | m7-ae3-grupal/gestion_academica/academico/models.py:46-50 | Invalid for `redes` over 255 characters or a `foto` path over 100, BadRef for a missing student, Duplicate if the student already has a profile; on success the profile is stored under the student's id |
| Academico.Store.UpdatePerfil | m7-ae3-grupal/gestion_academica/academico/models.py:46-50 | NotFound or Invalid without change; otherwise replaces only that profile |
| Academico.Store.DeletePerfil | m7-ae3-grupal/gestion_academica/academico/models.py:46-47 | removes exactly that profile and leaves the student |
| Validacion.CursosDeProfesores | m7-ae3-grupal/gestion_academica/validacion.py:14-19 | after the course creations, profesor1 owns exactly curso1 and curso2 and profesor2 exactly curso3, and their names are the ones printed |
| Validacion.InscripcionesQueries | m7-ae3-grupal/gestion_academica/validacion.py:28-36 | curso1's students are exactly Carlos; Laura's courses are exactly SQL and Django |
| Validacion.EnCursosProfesor1 | m7-ae3-grupal/gestion_academica/validacion.py:28-30 | the enrollments on curso1 and curso2 are exactly inscripcion1 and inscripcion2 |
| Validacion.CascadeCursos | m7-ae3-grupal/gestion_academica/validacion.py:55-62 | deleting profesor1 leaves only the Django course; the course count goes from 3 to 1 |
| Validacion.CascadeInscripciones | m7-ae3-grupal/gestion_academica/validacion.py:58 | deleting profesor1 leaves only inscripcion3 |
| Validacion.CrearProfesoresYCursos | m7-ae3-grupal/gestion_academica/validacion.py:10-19 | both professor creates succeed with ids 1 and 2 and the three course creates with ids 1 to 3, and the printed course lists are the sets above |
| Validacion.CrearEstudiantes | m7-ae3-grupal/gestion_academica/validacion.py:23-25 | both student creates succeed, since the emails differ |
| Validacion.Inscribir | m7-ae3-grupal/gestion_academica/validacion.py:28-30 | the three enrollment creates succeed, since the pairs differ; each takes the default state and no grade |
| Validacion.ListarInscripciones | m7-ae3-grupal/gestion_academica/validacion.py:35-36 | the printed students of curso1 are exactly Carlos, and Laura's courses are exactly SQL and Django |
| Validacion.FinalizarInscripcion | m7-ae3-grupal/gestion_academica/validacion.py:40-43 | the save succeeds; inscripcion1 displays "Finalizado" with grade 8.5, and the other two stay "Activo" |
| Validacion.CrearPerfiles | m7-ae3-grupal/gestion_academica/validacion.py:47-51 | both profile creates succeed, and Carlos's biography read through his profile is the stored one |
| Validacion.ContarAntes | m7-ae3-grupal/gestion_academica/validacion.py:55-57 | before the delete profesor1 has 2 courses and there are 3 in all |
| Validacion.EliminarProfesor1 | m7-ae3-grupal/gestion_academica/validacion.py:58 | the delete leaves exactly Ana, the Django course and inscripcion3, with the students and profiles as they were |
| Validacion.ContarDespues | m7-ae3-grupal/gestion_academica/validacion.py:60-62 | after the delete 1 course remains, 'Desarrollo Web con Django', and only inscripcion3 survives |
| Validacion.Ejecutar | m7-ae3-grupal/gestion_academica/validacion.py:5-65 | on an empty store, the script ends in the state after the cascade and reports exactly the expected listings and counts |
| Validacion.Run | m7-ae3-grupal/gestion_academica/validacion.py:5-65 | one run on an empty database: every listing and count the script prints, for any enrollment date |
| Validacion.ImportarYEjecutar | m7-ae3-grupal/gestion_academica/validacion.py:67-71 | running the script a second time on the same database recreates Juan but fails on Ana's email with Duplicate |

## Left out

- Views, URL tables, admin registrations and forms. They are request handling, rendering and routing, and hold none of the schema's rules.
- The volunteering schema. Its models file is not part of this model.
- `Producto.descripcion` is not modelled. `productos/views.py` passes it to the `Producto` constructor in the create view (line 58), which also omits the required `categoria`. Django rejects the undeclared keyword with a `TypeError`, so that view never reaches `save()` at line 59. The edit view sets it as a plain attribute (line 68), which is not saved; that view keeps the stored category. `Producto` does not declare the field, and the schema in `productos/models.py` is followed here.
- `metadata()` is left out: it only returns constant verbose-name dictionaries.
- `__str__` of Profesor, Curso, Estudiante, Producto, Categoria and Etiquetas returns the `nombre` field. The model reads `nombre` directly.
- The format of email addresses is not checked. `EmailField` is modelled as text of at most 254 characters; only uniqueness is enforced.
- `nota_final` is an opaque `Option<real>`. No float rounding or arithmetic is modelled.
- `foto` is an optional path string. Uploads and file storage are not modelled.
- Dates are not read from a clock. `auto_now_add` becomes a `hoy` parameter of `CreateInscripcion` and of the script.
- Transactions, atomicity and concurrent access are not modelled. Each cascade is one sequential method.
- Validation is applied at every create and update, and a violation gives `Invalid`. It covers four checks: a required field is blank (every text field without `blank=True`), `max_length` (including the defaults of `EmailField` and `ImageField`), `choices`, and decimal bounds. A bare `save()` on SQLite checks none of the first three. Other validators, such as the email format, are not modelled.
- Amounts are given in hundredths. Rounding a decimal input with more than two places before it is stored is not modelled.
- Academico.Store.DeleteProfesor: its contract gives the new course table as a map difference, not as a count. The count follows from `Academico.CursosDeCount`.
- Querysets without an explicit ordering are modelled as sets. The order in which the script prints names is not modelled.
- The script is modelled only on an empty database (`Validacion.Run`), plus its second run (`Validacion.ImportarYEjecutar`). Runs on other existing data are not modelled.
- The script's `print` output is not modelled as text. `Validacion.Run` returns the printed values as a `Report`.

## Findings

| source | as written | input that shows it | evidently intended | confidence | as-written member | corrected member |
|---|---|---|---|---|---|---|
| m7-ae3-grupal/gestion_academica/validacion.py:67-71 | line 71 calls `run()` whenever the module is imported, and lines 67-70 tell the user to import it and then call `validacion.run()` | follow the usage note: import, then call `run()`; the second run recreates Juan (line 10), then fails on Ana's unique email (line 11, models.py line 6) | the script runs once, on an empty database | not executed; follows from `unique=True` | Validacion.ImportarYEjecutar | Validacion.Run |
