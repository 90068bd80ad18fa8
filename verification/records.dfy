/** The already-decoded request and response records exchanged with the
    backend, and the domain records they carry. Field names follow the
    Kotlin properties; JSON field renaming and decoding defaults belong to
    the serializer and are not modelled. */
module Records {
  import opened Outcomes

  // --- Authentication -----------------------------------------------------

  datatype LoginRequest = LoginRequest(username: string, password: string)

  /** `role` is optional in the login response. */
  datatype LoginResponse = LoginResponse(token: string, role: Option<string>)

  /** What a successful login hands to the screen. */
  datatype LoginSuccessData = LoginSuccessData(token: string, role: string)

  // --- Profile ------------------------------------------------------------

  /** The profile record of the `auth/profile/` and `profile/update/` endpoints. */
  datatype User = User(
    id: int,
    username: string,
    email: string,
    firstName: string,
    lastName: string,
    fullName: string,
    phone: string,
    country: string,
    city: string,
    role: string,
    englishLevel: string,
    birthDate: string,
    address: string,
    learningGoals: string,
    profileCompleted: bool,
    bloqueAsignado: string,
    createdAt: string,
    correoPersonal: string)

  datatype UserProfileResponse = UserProfileResponse(success: bool, user: User)
  datatype UpdateProfileResponse = UpdateProfileResponse(success: bool, user: User)

  // --- Classes ------------------------------------------------------------

  datatype Clase = Clase(
    id: int, nombre: string, profesor: string, fecha: string, hora: string,
    duracion: int, tema: string, descripcion: Option<string>, tipoClase: string,
    modalidad: string, meetLink: Option<string>, estado: string, createdAt: string)

  datatype ClassesResponse = ClassesResponse(success: bool, total: int, clases: seq<Clase>)

  datatype CreateClassRequest = CreateClassRequest(
    nombre: string, fecha: string, hora: string, duracion: int, tema: string,
    modalidad: string, descripcion: string, tipoClase: string, meetLink: string,
    estudiantes: seq<int>, profesor: Option<string>)

  datatype CreateClassResponse = CreateClassResponse(
    success: bool, message: Option<string>, clase: Option<Clase>,
    errors: Option<seq<(string, seq<string>)>>)

  // --- Evaluations --------------------------------------------------------

  /** `calificacion` is a 32-bit float in the source; it is kept here as
      the exact real number it denotes. */
  datatype Evaluation = Evaluation(
    id: int, titulo: string, descripcion: Option<string>, tipo: string, profesor: string,
    fechaLimite: string, archivoUrl: Option<string>, estadoEstudiante: string,
    fechaEntrega: Option<string>, calificacion: Option<real>, createdAt: string)

  datatype EvaluationsResponse = EvaluationsResponse(
    success: bool, total: int, evaluaciones: seq<Evaluation>, message: Option<string>)

  // --- Blocks and specialisations -----------------------------------------

  datatype Bloque = Bloque(
    id: int, nombre: string, nivel: string, estado: string, grupoColor: string,
    horarioInicio: Option<string>, horarioFin: Option<string>, cupoMaximo: int,
    activo: bool, estudiantesCount: int)

  /** `Bloque.getDisplayName`: the level, a space, and the name. */
  function DisplayName(b: Bloque): (r: string)
    ensures |r| == |b.nivel| + 1 + |b.nombre|
    ensures r[..|b.nivel|] == b.nivel && r[|b.nivel|] == ' ' && r[|b.nivel| + 1..] == b.nombre
  {
    b.nivel + " " + b.nombre
  }

  datatype BloquesResponse = BloquesResponse(success: bool, total: int, bloques: seq<Bloque>)

  datatype Especializacion = Especializacion(
    id: int, nombre: string, descripcion: string, precioAdicional: Option<string>, activa: bool)

  datatype EspecializacionesResponse = EspecializacionesResponse(success: bool, data: seq<Especializacion>)

  // --- Clubs --------------------------------------------------------------

  datatype ClubMaterial = ClubMaterial(
    id: int, week: string, title: string, description: string, resourceType: string,
    url: string, fileUrl: string, createdAt: string)

  datatype Club = Club(
    id: int, name: string, description: string, profesor: string, totalStudents: int,
    materials: seq<ClubMaterial>, createdAt: string)

  datatype ClubsResponse = ClubsResponse(success: bool, total: int, clubs: seq<Club>, message: Option<string>)

  // --- People -------------------------------------------------------------

  datatype Professor = Professor(
    id: int, username: string, email: string, firstName: string, lastName: string, fullName: string)

  datatype ProfessorsResponse = ProfessorsResponse(success: bool, total: int, professors: seq<Professor>)

  datatype Student = Student(
    id: int, username: string, email: string, firstName: string, lastName: string, fullName: string)

  datatype StudentsResponse = StudentsResponse(success: bool, total: int, students: seq<Student>)

  // --- User management ----------------------------------------------------

  /** The user record of the user-management endpoints (`users/`, `auth/register/`). */
  datatype Account = Account(
    id: int, username: string, email: string, firstName: string, lastName: string,
    role: string, bloqueAsignado: Option<string>, especializacion: Option<string>, isActive: bool)

  datatype CreateUserRequest = CreateUserRequest(
    username: Option<string>, email: string, password: string, firstName: string,
    lastName: string, role: string, bloqueAsignado: Option<string>,
    especializacion: Option<string>, correoPersonal: Option<string>)

  /** `errors` is the decoded field-to-messages map, in decoding (insertion) order. */
  datatype CreateUserResponse = CreateUserResponse(
    success: bool, user: Option<Account>, message: Option<string>,
    errors: Option<seq<(string, seq<string>)>>)

  // --- Gallery ------------------------------------------------------------

  datatype MediaItem = MediaItem(
    id: int, kind: string, title: string, description: string, url: Option<string>,
    file: Option<string>, thumbnail: Option<string>, author: string, category: string,
    createdAt: string, isActive: bool)

  datatype GalleryResponse = GalleryResponse(success: bool, total: int, items: seq<MediaItem>)

  datatype CreateMediaRequest = CreateMediaRequest(
    kind: string, title: string, description: string, url: Option<string>,
    thumbnail: Option<string>, author: string, category: string)
}
