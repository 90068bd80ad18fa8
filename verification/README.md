# lengua — a Dafny model of the app's rules

`lengua` is an Android client for a language school. Students see their
clubs, classes and evaluations. Teachers and administrators schedule
classes, create users and publish gallery content. Beneath the Compose
screens and the Retrofit client sits a layer of small, deterministic rules,
and this project models that layer as pure Dafny functions over immutable
datatypes:

- **The session and the repositories.** The stored token is `Option<string>`
  (`Api`). Each repository operation is a pure function from the session
  and the backend's answer to the `Result` it returns. The answer is one of
  an exception with an optional message, an HTTP status with an optional
  body, or a decoded body. Each operation also records the `Authorization`
  header it sent, with `None` meaning no request was made. Modules:
  `AuthRepository`, `UserRepository`, `FormDataRepository`,
  `GalleryRepository`.
- **Media links** (`Media`): the content URL, the thumbnail rules, and the
  YouTube id extraction. The two regular expressions are modelled as a
  leftmost search over a list of literal alternatives, followed by the
  maximal run of characters that are neither `&` nor white space.
- **View models as state machines.** Every view model is a state record.
  Every launched coroutine is one atomic step from that record and the
  repository's answer to the next record. The modules are `Login`,
  `ScheduledClasses`, `ScheduleClassViewModel`, `UserViewModel`,
  `GalleryViewModel`, `AdminBlocks`, `Profile`, `EditProfile`, `Home`,
  `Clubs` and `Evaluations`.
- **Screen rules.** These cover:
  - when buttons are enabled;
  - the request a form sends;
  - the reaction to a finished request (toast, reset, navigation);
  - which of the loading, error, empty or content views a screen shows;
  - the placeholders and badges it prints.

  The modules are `ScheduleClassScreen`, `CreateUserScreen`,
  `AddGalleryItemScreen`, and the screen parts of the view-model modules.

Shared vocabulary lives in `Outcomes`, `Text`, `Collections` and `Records`:
- `Outcomes` holds `Result` with `Success`, `Error` and `Loading`, plus `Option`.
- `Text` holds `isBlank`, case mapping, `substringBefore`, joining and splitting, and zero-padded numbers.
- `Collections` holds filtering and de-duplication.
- `Records` holds the decoded API records.

Source paths below are relative to the repository root.

## Model

| member | source | states |
|---|---|---|
| Api.SaveToken | app/src/main/java/com/example/lengua/data/repository/AuthRepository.kt:29-34 | after a save, the stored token is exactly the saved one |
| Api.ClearToken | app/src/main/java/com/example/lengua/data/repository/AuthRepository.kt:42-45 | after clearing, no token is stored |
| Api.SessionLaws | app/src/main/java/com/example/lengua/data/repository/AuthRepository.kt:29-45 | a read after a save returns the saved token; a read after clearing returns none; clearing twice is the same as clearing once; the last save wins |
| Api.Bearer | app/src/main/java/com/example/lengua/data/repository/AuthRepository.kt:70 | the header is the seven characters `Bearer ` followed by the token, unchanged |
| AuthRepository.Login | app/src/main/java/com/example/lengua/data/repository/AuthRepository.kt:53-65 | sends the credentials unchanged; on a response it stores the token and succeeds with that token and the role, or `student` when the role is absent; on an exception the session is untouched and the error is the message, or `Error de login desconocido` |
| AuthRepository.Logout | app/src/main/java/com/example/lengua/data/repository/AuthRepository.kt:140-142 | afterwards no token is stored |
| AuthRepository.GetUserClubs | app/src/main/java/com/example/lengua/data/repository/AuthRepository.kt:67-79 | without a token, `No hay token de autenticación` and no request; otherwise a `Bearer` request; success iff the body says so, giving its clubs; a rejection surfaces the backend message or `Error al obtener clubs`; an exception gives its message or `Error de conexión` |
| AuthRepository.GetUserProfile | app/src/main/java/com/example/lengua/data/repository/AuthRepository.kt:81-89 | the same token guard; success iff the body says so; a rejection gives a fixed message whatever the body holds; an exception gives its message or the fixed network message |
| AuthRepository.UpdateUserProfile | app/src/main/java/com/example/lengua/data/repository/AuthRepository.kt:91-99 | the same token guard; the profile map is sent unchanged, and only when a token exists; success iff the body says so, otherwise the fixed messages |
| AuthRepository.GetUserClasses | app/src/main/java/com/example/lengua/data/repository/AuthRepository.kt:101-109 | the same token guard; success iff the body says so, giving its classes; otherwise the fixed messages |
| AuthRepository.GetUserEvaluations | app/src/main/java/com/example/lengua/data/repository/AuthRepository.kt:111-120 | the same token guard; success iff the decoded object says so; a rejection surfaces the backend message or `Error al obtener evaluaciones` |
| AuthRepository.GetBloques | app/src/main/java/com/example/lengua/data/repository/AuthRepository.kt:122-138 | the same token guard; a non-2xx status or a missing body gives `Error de red: <code>`; a body with `success` false gives the fixed backend message; otherwise the blocks |
| AuthRepository.ProfileScenarios | app/src/main/java/com/example/lengua/data/repository/AuthRepository.kt:81-89 | with token `abc123` a successful profile is returned and the header sent is `Bearer abc123`; with no token the error is returned and nothing is sent |
| AuthRepository.LoginThenLogout | app/src/main/java/com/example/lengua/data/repository/AuthRepository.kt:53-65 | after a successful login the session holds the new token; after logout it holds none, and a repeated logout changes nothing |
| UserRepository.FormatFieldErrors | app/src/main/java/com/example/lengua/data/repository/UserRepository.kt:38-41 | an empty error map gives the empty string; a single field gives `field: m1, m2` |
| UserRepository.FieldErrorLines | app/src/main/java/com/example/lengua/data/repository/UserRepository.kt:38-41 | splitting the joined message at line breaks gives back one `field: m1, m2` line per field, in map order |
| UserRepository.EmailTakenMessage | app/src/main/java/com/example/lengua/data/repository/UserRepository.kt:38-41 | `{email: [ya existe]}` gives `email: ya existe` |
| UserRepository.GetUsers | app/src/main/java/com/example/lengua/data/repository/UserRepository.kt:13-26 | without a token, `No hay sesión` and no request; success iff 2xx with a body, returning the body unchanged; otherwise `Error al obtener usuarios: <code>`; an exception gives `Error de conexión: <message>` |
| UserRepository.CreateUser | app/src/main/java/com/example/lengua/data/repository/UserRepository.kt:28-49 | the same guard; the request is sent unchanged; success iff `success` is true and a user is present; otherwise the field errors joined, or `Error al crear usuario` when there is no error map; HTTP failure gives `Error: <code>` |
| UserRepository.RejectionMessages | app/src/main/java/com/example/lengua/data/repository/UserRepository.kt:35-41 | no error map gives `Error al crear usuario`; an empty map gives the empty message; `success` with no user is still an error |
| FormDataRepository.GetBloques | app/src/main/java/com/example/lengua/data/repository/FormDataRepository.kt:14-32 | without a token, `No hay sesión` and no request; success iff 2xx, a body and `success`, giving exactly the blocks; otherwise `Error al obtener bloques`, `Error: <code>` or `Error de conexión: <message>` |
| FormDataRepository.GetEspecializaciones | app/src/main/java/com/example/lengua/data/repository/FormDataRepository.kt:34-52 | the same rules for the specialisations and their own rejection message |
| GalleryRepository.CreatePart | app/src/main/java/com/example/lengua/data/repository/GalleryRepository.kt:52-65 | an unreadable pick gives no part; otherwise the part has the requested name and the display name when one is known, else the part name |
| GalleryRepository.GetGalleryItems | app/src/main/java/com/example/lengua/data/repository/GalleryRepository.kt:21-36 | needs no session; success iff 2xx, a body and `success`, giving the items; the backend, HTTP and exception failures give three distinct prefixed messages |
| GalleryRepository.CreateMediaItem | app/src/main/java/com/example/lengua/data/repository/GalleryRepository.kt:38-50 | without a token, the no-session message and no request; the request is sent unchanged; success on any 2xx with a body, with no success flag inspected; otherwise the prefixed HTTP or exception message |
| GalleryRepository.CreateMediaItemWithFile | app/src/main/java/com/example/lengua/data/repository/GalleryRepository.kt:67-107 | without a token, or with an unreadable main file, fails with its own message and uploads nothing; otherwise uploads the five text fields, the `file` part and the optional `thumbnail` part; success iff 2xx with a body |
| GalleryRepository.UploadFailureNamesCodeAndBody | app/src/main/java/com/example/lengua/data/repository/GalleryRepository.kt:99-103 | an HTTP rejection's message contains the status code and then the error body |
| Media.ContentUrl | app/src/main/java/com/example/lengua/data/model/MediaItem.kt:25-27 | the file whenever it is present, even if empty; otherwise the URL |
| Media.FindFrom | app/src/main/java/com/example/lengua/data/model/MediaItem.kt:58-61 | finds the leftmost position where some alternative matches and the first alternative matching there, or reports that none matches anywhere |
| Media.FindGroupIsMaximalRun | app/src/main/java/com/example/lengua/data/model/MediaItem.kt:54-55 | the captured id is the text right after the matched prefix, and it stops at the end of the link or before `&` or white space |
| Media.ExtractYouTubeId | app/src/main/java/com/example/lengua/data/model/MediaItem.kt:52-66 | the watch/short pattern wins wherever it matches; when it matches nowhere, the result is exactly the embed pattern's group; an id is non-empty and has no `&` or white space; none iff neither pattern matches anywhere |
| Media.YouTubeThumbnail | app/src/main/java/com/example/lengua/data/model/MediaItem.kt:45 | the thumbnail address is `https://img.youtube.com/vi/`, then the id, then `/maxresdefault.jpg` |
| Media.ThumbnailUrl | app/src/main/java/com/example/lengua/data/model/MediaItem.kt:32-50 | a non-blank thumbnail is returned first; an image falls back to its content URL, which may be none; types other than image and video give none |
| Media.ExtractedLinkMentionsYouTube | app/src/main/java/com/example/lengua/data/model/MediaItem.kt:42-43 | a link that yields an id contains `youtube` or `youtu.be`, so the guard never hides an extractable id |
| Media.VideoThumbnail | app/src/main/java/com/example/lengua/data/model/MediaItem.kt:42-49 | a video without a thumbnail has one iff an id can be extracted from its URL, and it is the YouTube address for that id; the `file` field never matters |
| Records.DisplayName | app/src/main/java/com/example/lengua/data/model/Bloque.kt:25-27 | the level, one space, then the name |
| Login.Start | app/src/main/java/com/example/lengua/screen/LoginViewModel.kt:34 | loading, with the previous result dropped |
| Login.Complete | app/src/main/java/com/example/lengua/screen/LoginViewModel.kt:36 | not loading, holding exactly the given result |
| Login.SubmitLogin | app/src/main/java/com/example/lengua/screen/LoginViewModel.kt:32-38 | ends not loading with exactly the repository's login result and the session the repository leaves; success iff the backend answered, and then the session holds the new token; on an error the session is unchanged |
| Login.Destination | app/src/main/java/com/example/lengua/screen/LoginScreen.kt:62-66 | `admin` goes to the admin dashboard and `profesor` to the teacher dashboard, by exact case-sensitive match; anything else goes home |
| Login.React | app/src/main/java/com/example/lengua/screen/LoginScreen.kt:54-76 | navigates iff the result is a success, to the role's destination; an error only shows `Error: <message>` |
| Login.LoginNavigation | app/src/main/java/com/example/lengua/screen/LoginScreen.kt:54-76 | a backend answer leads to the destination of its role, or home when the role is absent; an exception never navigates |
| Login.RunConsistent | app/src/main/java/com/example/lengua/screen/LoginViewModel.kt:32-38 | over any run of starts and completions, the state is never loading while holding a result, and after a completion it holds that completion's result |
| ScheduledClasses.Classified | app/src/main/java/com/example/lengua/screen/ScheduledClassesScreen.kt:57-62 | ongoing, upcoming and completed hold exactly the classes whose status is `activa`, `programada` (ignoring case), or neither |
| ScheduledClasses.StatusesExclusive | app/src/main/java/com/example/lengua/screen/ScheduledClassesScreen.kt:59-60 | no class is both ongoing and upcoming |
| ScheduledClasses.ClassifiedIsPartition | app/src/main/java/com/example/lengua/screen/ScheduledClassesScreen.kt:59-61 | the three lists together are a permutation of the input, and each is a subsequence of it, so each keeps the input order |
| ScheduledClasses.PendingSplit | app/src/main/java/com/example/lengua/screen/ScheduledClassesScreen.kt:59-61 | splitting the not-completed classes by the ongoing test gives exactly the ongoing and the upcoming lists |
| ScheduledClasses.StartLoad | app/src/main/java/com/example/lengua/screen/ScheduledClassesScreen.kt:53 | loading, error cleared, lists kept |
| ScheduledClasses.FinishLoad | app/src/main/java/com/example/lengua/screen/ScheduledClassesScreen.kt:54-65 | a success gives the classification; an error gives empty lists and the message; a `Loading` answer, for which there is no branch, leaves the state unchanged |
| ScheduledClasses.LoadUserClasses | app/src/main/java/com/example/lengua/screen/ScheduledClassesScreen.kt:51-67 | ends not loading; error iff the repository failed; otherwise the classification of the classes received |
| ScheduledClasses.LoadsKeepErrorsApart | app/src/main/java/com/example/lengua/screen/ScheduledClassesScreen.kt:51-67 | over any number of loads, an error is never shown alongside classes |
| ScheduledClasses.Render | app/src/main/java/com/example/lengua/screen/ScheduledClassesScreen.kt:105-130 | the spinner iff loading, then `Error: <message>`, then the empty message iff all three lists are empty, then only the non-empty sections |
| ScheduledClasses.SectionsListEveryClass | app/src/main/java/com/example/lengua/screen/ScheduledClassesScreen.kt:116-130 | the sections shown list exactly the ongoing, upcoming and completed classes, in that order |
| ScheduledClasses.ChipLabel | app/src/main/java/com/example/lengua/screen/ScheduledClassesScreen.kt:161 | the capitalised label differs from the status only in case, so it selects the same chip colour |
| ScheduledClasses.ChipMatchesSection | app/src/main/java/com/example/lengua/screen/ScheduledClassesScreen.kt:152-159 | the chip colour agrees with the section a class is listed in: active iff ongoing, scheduled iff upcoming |
| ScheduledClasses.ActiveChipIffActiva | app/src/main/java/com/example/lengua/screen/ScheduledClassesScreen.kt:152-159 | the active chip colour is chosen exactly for statuses that lower-case to `activa` |
| ScheduledClasses.ScheduledChipIffProgramada | app/src/main/java/com/example/lengua/screen/ScheduledClassesScreen.kt:152-159 | the scheduled chip colour is chosen exactly for statuses that lower-case to `programada` |
| ScheduleClassScreen.PickedDate | app/src/main/java/com/example/lengua/screen/ScheduleClassScreen.kt:59 | for any value the picker can produce, the text is ten characters in the backend `dddd-dd-dd` shape, and its three digit fields read back as the year, the month plus one and the day |
| ScheduleClassScreen.PickedTime | app/src/main/java/com/example/lengua/screen/ScheduleClassScreen.kt:70 | for any value the picker can produce, the text is five characters in the backend `dd:dd` shape, and its two digit fields read back as the hour and the minute |
| ScheduleClassScreen.PickedDateIsBackendDate | app/src/main/java/com/example/lengua/screen/ScheduleClassScreen.kt:59 | the backend formatting passes a picked date through unchanged, whatever the calendar parser would make of it |
| ScheduleClassScreen.PickedTimeIsBackendTime | app/src/main/java/com/example/lengua/screen/ScheduleClassScreen.kt:70 | the backend formatting passes a picked time through unchanged |
| ScheduleClassScreen.ToggleStudent | app/src/main/java/com/example/lengua/screen/ScheduleClassScreen.kt:298-304 | removes the id when it is selected and adds it otherwise; the selection stays free of duplicates |
| ScheduleClassScreen.ToggleTwice | app/src/main/java/com/example/lengua/screen/ScheduleClassScreen.kt:298-304 | toggling the same student twice restores the selection |
| ScheduleClassScreen.SelectAll | app/src/main/java/com/example/lengua/screen/ScheduleClassScreen.kt:274-279 | clears the selection when its size equals the number of students, comparing sizes only; otherwise selects exactly every student id |
| ScheduleClassScreen.SelectAllClearsWhenAllSelected | app/src/main/java/com/example/lengua/screen/ScheduleClassScreen.kt:275 | for a valid selection among students with distinct ids, equal sizes mean every student is selected |
| ScheduleClassScreen.SelectionStaysValid | app/src/main/java/com/example/lengua/screen/ScheduleClassScreen.kt:274-304 | toggling a listed student, or pressing select-all, keeps the selection a duplicate-free set of listed ids |
| ScheduleClassScreen.Submit | app/src/main/java/com/example/lengua/screen/ScheduleClassScreen.kt:184-199 | a request is made iff a professor is chosen; it carries the professor's full name and the selected ids |
| ScheduleClassScreen.PickedValuesReachBackend | app/src/main/java/com/example/lengua/screen/ScheduleClassScreen.kt:184-199 | a date and time from the pickers reach the backend exactly as picked |
| ScheduleClassViewModel.FormatDateForBackend | app/src/main/java/com/example/lengua/screen/ScheduleClassViewModel.kt:19-31 | a date of the form `dddd-dd-dd` in ASCII digits is returned unchanged; otherwise the reparsed date, or the input when parsing fails |
| ScheduleClassViewModel.FormatTimeForBackend | app/src/main/java/com/example/lengua/screen/ScheduleClassViewModel.kt:33-45 | a time of the form `dd:dd` is returned unchanged; otherwise the reparsed time, or the input when parsing fails |
| ScheduleClassViewModel.LoadInitialData | app/src/main/java/com/example/lengua/screen/ScheduleClassViewModel.kt:68-85 | ends not loading; without a token the error is `Authentication token not found.`; the professors are stored before the students are fetched, so a later failure keeps them |
| ScheduleClassViewModel.ProfessorsKeptWhateverStudents | app/src/main/java/com/example/lengua/screen/ScheduleClassViewModel.kt:68-85 | once the professors' call has answered, the professors shown are that answer whatever the students' call then does |
| ScheduleClassViewModel.BuildRequest | app/src/main/java/com/example/lengua/screen/ScheduleClassViewModel.kt:105-119 | the request carries the arguments, the formatted date and time, and always `duracion` 60, `tema` `General` and `modalidad` `virtual` |
| ScheduleClassViewModel.CreateClass | app/src/main/java/com/example/lengua/screen/ScheduleClassViewModel.kt:96-134 | ends not loading; sends a request iff a token exists; success iff the backend says so, with no error; otherwise the backend message or `An unknown error occurred.`, the missing-token message, or the exception's message |
| ScheduleClassViewModel.CreateClassOutcomeExclusive | app/src/main/java/com/example/lengua/screen/ScheduleClassViewModel.kt:96-134 | after creation exactly one of success and error is shown |
| CreateUserScreen.PickRole | app/src/main/java/com/example/lengua/screen/CreateUserScreen.kt:97 | the role is one of `student`, `profesor` and `admin`; nothing else in the form changes |
| CreateUserScreen.SubmitRequest | app/src/main/java/com/example/lengua/screen/CreateUserScreen.kt:193-203 | the username is the login e-mail up to its first `@`, or all of it when there is none; the other fields are copied; the personal e-mail is sent iff it is not blank |
| CreateUserScreen.UsernameExample | app/src/main/java/com/example/lengua/screen/CreateUserScreen.kt:194 | `ana@x.org` yields the username `ana` |
| CreateUserScreen.BlockPicker | app/src/main/java/com/example/lengua/screen/CreateUserScreen.kt:102-130 | a spinner while loading and `Error: <message>` on error; otherwise `Sin asignar`, which chooses none, followed by each block's display name |
| CreateUserScreen.SpecialisationPicker | app/src/main/java/com/example/lengua/screen/CreateUserScreen.kt:135-163 | the same for specialisations, with `Sin especialización` and each name |
| CreateUserScreen.ChosenBlockIsSent | app/src/main/java/com/example/lengua/screen/CreateUserScreen.kt:116-123 | the first option sends no block; option `k + 1` sends block `k`'s display name |
| Outcomes.ReactToCreation | app/src/main/java/com/example/lengua/screen/CreateUserScreen.kt:52-66 | both a success and an error reset the create state and show a toast (the success text, or `Error: <message>`); only a success navigates back; the gallery form follows the same rule |
| CreateUserScreen.CreationReenablesForm | app/src/main/java/com/example/lengua/screen/CreateUserScreen.kt:186-218 | after a submission's result is handled, both buttons are enabled again |
| UserViewModel.LoadUsers | app/src/main/java/com/example/lengua/screen/UserViewModel.kt:40-45 | the users become exactly the repository's result; nothing else changes |
| UserViewModel.LoadBloques | app/src/main/java/com/example/lengua/screen/UserViewModel.kt:47-52 | the blocks become exactly the repository's result; nothing else changes |
| UserViewModel.LoadEspecializaciones | app/src/main/java/com/example/lengua/screen/UserViewModel.kt:54-59 | the specialisations become exactly the repository's result; nothing else changes |
| UserViewModel.CreateUser | app/src/main/java/com/example/lengua/screen/UserViewModel.kt:61-93 | the create state becomes the repository's result for the request; the users are reloaded iff it is a success |
| UserViewModel.ResetCreateUser | app/src/main/java/com/example/lengua/screen/UserViewModel.kt:95-97 | the create state becomes null; nothing else changes |
| UserViewModel.RunStaysSettled | app/src/main/java/com/example/lengua/screen/UserViewModel.kt:26-97 | over any sequence of these operations, a finished create never leaves `Loading` behind, and settled lists stay settled |
| GalleryViewModel.LoadGallery | app/src/main/java/com/example/lengua/screen/GalleryViewModel.kt:33-38 | the gallery becomes exactly the repository's result; the create state is untouched |
| GalleryViewModel.Created | app/src/main/java/com/example/lengua/screen/GalleryViewModel.kt:22-31 | construction loads the gallery, and the create state is null |
| GalleryViewModel.Publish | app/src/main/java/com/example/lengua/screen/GalleryViewModel.kt:60-65 | the create state becomes the result; the gallery is reloaded iff it is a success |
| GalleryViewModel.CreateMediaItem | app/src/main/java/com/example/lengua/screen/GalleryViewModel.kt:40-67 | builds the request from the arguments unchanged and publishes the repository's result |
| GalleryViewModel.CreateMediaItemWithFile | app/src/main/java/com/example/lengua/screen/GalleryViewModel.kt:69-84 | publishes the file upload's result; success needs a session and a readable file |
| GalleryViewModel.ResetCreateMedia | app/src/main/java/com/example/lengua/screen/GalleryViewModel.kt:86-88 | the create state becomes null and the gallery is kept |
| GalleryViewModel.RunStaysSettled | app/src/main/java/com/example/lengua/screen/GalleryViewModel.kt:33-88 | over any sequence of operations, the gallery and the create state never stay `Loading` |
| GalleryViewModel.CreatedIsSettled | app/src/main/java/com/example/lengua/screen/GalleryViewModel.kt:29-31 | from construction on, whatever happens, nothing stays `Loading` |
| AddGalleryItemScreen.SwitchSource | app/src/main/java/com/example/lengua/screen/AddGalleryItemScreen.kt:128-135 | choosing URL drops the picked file, and choosing a file clears the URL; nothing else changes |
| AddGalleryItemScreen.PickerType | app/src/main/java/com/example/lengua/screen/AddGalleryItemScreen.kt:132 | `image/*` exactly for `Imagen`, `video/*` otherwise |
| AddGalleryItemScreen.BackendType | app/src/main/java/com/example/lengua/screen/AddGalleryItemScreen.kt:153-157 | `Imagen` becomes `image`; anything else is lower-cased, so the result has no upper-case letter |
| AddGalleryItemScreen.BackendTypeOfChoices | app/src/main/java/com/example/lengua/screen/AddGalleryItemScreen.kt:153-157 | the two offered types become `image` and `video` |
| AddGalleryItemScreen.Submit | app/src/main/java/com/example/lengua/screen/AddGalleryItemScreen.kt:152-181 | file mode uploads only when a file is chosen and sends no thumbnail; URL mode sends a blank URL or thumbnail as null |
| AddGalleryItemScreen.EnabledSubmits | app/src/main/java/com/example/lengua/screen/AddGalleryItemScreen.kt:142 | when the button is enabled, pressing it always sends something, and in URL mode it sends the URL |
| AddGalleryItemScreen.FileUploadHasNoThumbnail | app/src/main/java/com/example/lengua/screen/AddGalleryItemScreen.kt:159-169 | a file submission never uploads a thumbnail part |
| AddGalleryItemScreen.SubmissionOutcome | app/src/main/java/com/example/lengua/screen/AddGalleryItemScreen.kt:141-183 | after an enabled press and its reaction, the buttons are enabled again, and the screen leaves iff the item was created |
| AdminBlocks.StrLessTransitive | app/src/main/java/com/example/lengua/screen/AdminBlocksViewModel.kt:44 | the key order is transitive |
| AdminBlocks.StrLessTotal | app/src/main/java/com/example/lengua/screen/AdminBlocksViewModel.kt:44 | any two distinct keys are ordered one way or the other |
| AdminBlocks.InsertKeySorted | app/src/main/java/com/example/lengua/screen/AdminBlocksViewModel.kt:44 | inserting a key into sorted distinct keys keeps them sorted and distinct |
| AdminBlocks.LevelsSorted | app/src/main/java/com/example/lengua/screen/AdminBlocksViewModel.kt:44 | the levels that occur come out in ascending order, without repeats |
| AdminBlocks.LevelGroupIsFilter | app/src/main/java/com/example/lengua/screen/AdminBlocksViewModel.kt:44 | a level's group is exactly the response filtered by that level |
| AdminBlocks.LevelGroupAppend | app/src/main/java/com/example/lengua/screen/AdminBlocksViewModel.kt:44 | grouping distributes over concatenation, so blocks keep the response order within a group |
| AdminBlocks.GroupsForCount | app/src/main/java/com/example/lengua/screen/AdminBlocksViewModel.kt:44 | when every block's level is a key, the groups hold as many blocks as the response |
| AdminBlocks.GroupByLevelIsGrouping | app/src/main/java/com/example/lengua/screen/AdminBlocksViewModel.kt:44 | the keys are ascending; no group is empty; a block is in a group iff its level is that key; every level is a key; the total count equals the number of blocks |
| AdminBlocks.GroupByLevelKeys | app/src/main/java/com/example/lengua/screen/AdminBlocksViewModel.kt:44 | the keys of the sorted map are the distinct levels that occur, in ascending order |
| AdminBlocks.GroupByLevelNonEmpty | app/src/main/java/com/example/lengua/screen/AdminBlocksViewModel.kt:44 | no level in the map has an empty list of blocks |
| AdminBlocks.GroupByLevelCoversLevels | app/src/main/java/com/example/lengua/screen/AdminBlocksViewModel.kt:44 | every fetched block's level is a key of the map |
| AdminBlocks.GroupByLevelCount | app/src/main/java/com/example/lengua/screen/AdminBlocksViewModel.kt:44 | the map holds as many blocks as were fetched |
| AdminBlocks.FinishFetch | app/src/main/java/com/example/lengua/screen/AdminBlocksViewModel.kt:41-55 | a success gives the sorted grouping with no error; an error gives no groups and the message; `Loading` keeps the state and keeps loading |
| AdminBlocks.FetchBlocks | app/src/main/java/com/example/lengua/screen/AdminBlocksViewModel.kt:38-57 | ends not loading; error iff the repository failed, and then no groups; the selection is untouched |
| AdminBlocks.SelectBlock | app/src/main/java/com/example/lengua/screen/AdminBlocksViewModel.kt:60-62 | sets the selection; the UI state is untouched |
| AdminBlocks.DismissDialog | app/src/main/java/com/example/lengua/screen/AdminBlocksViewModel.kt:64-66 | clears the selection; the UI state is untouched |
| AdminBlocks.FetchedBlocksShownOnce | app/src/main/java/com/example/lengua/screen/AdminBlocksViewModel.kt:38-57 | after a successful fetch, each block appears in the group of its own level |
| Profile.ProfileOf | app/src/main/java/com/example/lengua/screen/ProfileScreen.kt:93-110 | the full name unless it is blank, then the login name; the role with its first letter upper-cased and the rest unchanged; every other field copied |
| Profile.LoadUserProfile | app/src/main/java/com/example/lengua/screen/ProfileScreen.kt:87-119 | ends not loading; a success replaces the profile and clears the error; an error records the message and keeps the previous profile |
| Profile.IfEmpty | app/src/main/java/com/example/lengua/screen/ProfileScreen.kt:279 | the placeholder replaces an empty value only, so a blank value is shown as it is |
| Profile.PersonalInfo | app/src/main/java/com/example/lengua/screen/ProfileScreen.kt:274-297 | eight rows, none of them empty |
| Profile.AcademicInfo | app/src/main/java/com/example/lengua/screen/ProfileScreen.kt:300-318 | four rows; only the role has no placeholder |
| Profile.Render | app/src/main/java/com/example/lengua/screen/ProfileScreen.kt:182-216 | the spinner only while loading with no profile; the error takes priority over a stale profile; the profile otherwise; the spinner as a fallback |
| Profile.StartReload | app/src/main/java/com/example/lengua/screen/ProfileScreen.kt:89 | loading on, with the profile and the error kept |
| Profile.ReloadKeepsProfileOnScreen | app/src/main/java/com/example/lengua/screen/ProfileScreen.kt:147-158 | a reload on resume never blanks a profile already shown; it ends with the new profile or with the error |
| Profile.BlankFullNameShowsUsername | app/src/main/java/com/example/lengua/screen/ProfileScreen.kt:94-101 | a blank full name shows the login name, and `student` shows as `Student` |
| EditProfile.FormOf | app/src/main/java/com/example/lengua/screen/EditProfileScreen.kt:71-81 | the form copies the nine fields from the user |
| EditProfile.LoadInitialProfile | app/src/main/java/com/example/lengua/screen/EditProfileScreen.kt:65-88 | ends not loading; a success fills the form; an error records the message and keeps the form |
| EditProfile.Edit | app/src/main/java/com/example/lengua/screen/EditProfileScreen.kt:90-96 | each setter changes its own field and nothing else |
| EditProfile.KeysDistinct | app/src/main/java/com/example/lengua/screen/EditProfileScreen.kt:102-110 | the seven fields go under seven different keys |
| EditProfile.ProfileData | app/src/main/java/com/example/lengua/screen/EditProfileScreen.kt:102-110 | every editable field is sent under its own key, and every key sent is one of those; the e-mail and the role are not sent |
| EditProfile.ProfileDataSize | app/src/main/java/com/example/lengua/screen/EditProfileScreen.kt:102-110 | the map sent has exactly seven entries |
| EditProfile.SaveProfile | app/src/main/java/com/example/lengua/screen/EditProfileScreen.kt:98-119 | ends not loading with the form kept; a success sets `saveSuccess` and does not clear an earlier error; an error records the message only |
| EditProfile.SaveSendsLoadedProfileWithEdit | app/src/main/java/com/example/lengua/screen/EditProfileScreen.kt:65-119 | load, edit one field, then save sends the loaded profile with exactly that field changed |
| EditProfile.SaveOutcomeOnScreen | app/src/main/java/com/example/lengua/screen/EditProfileScreen.kt:98-119 | after a save the button is usable again; the screen leaves iff the save succeeded, and otherwise an error is shown |
| Home.Blank | app/src/main/java/com/example/lengua/screen/HomeScreen.kt:59-75 | the defaults: empty texts, zero counters, no image |
| Home.LoadUserProfile | app/src/main/java/com/example/lengua/screen/HomeScreen.kt:86-116 | starts from a fresh state; a success copies the profile with 42 candies, 1250 XP and no image; an error gives the defaults with the message |
| Home.Welcome | app/src/main/java/com/example/lengua/screen/HomeScreen.kt:423 | `Welcome <name>`, or `Welcome` when the name is empty |
| Text.IntToString | app/src/main/java/com/example/lengua/screen/HomeScreen.kt:312-335 | decimal digits, with a minus sign for negatives |
| Home.Render | app/src/main/java/com/example/lengua/screen/HomeScreen.kt:147-189 | loading first, then the error with `Reintentar`, then the content with the banner for the first name |
| Home.LoadOutcomeOnScreen | app/src/main/java/com/example/lengua/screen/HomeScreen.kt:86-189 | a load shows the spinner, then the content iff the profile arrives, with counters `42` and `1250 XP` |
| Home.LogoutAction | app/src/main/java/com/example/lengua/screen/HomeScreen.kt:181-186 | the token is cleared and the app navigates to `main_screen` |
| Home.HomeAfterLogout | app/src/main/java/com/example/lengua/screen/HomeScreen.kt:118-120 | after logout, a home load fails with the missing-token message, whatever the backend would say |
| Clubs.FirstOrNull | app/src/main/java/com/example/lengua/screen/ClubScreen.kt:63 | none iff the list is empty; otherwise its first element |
| Clubs.LoadClubs | app/src/main/java/com/example/lengua/screen/ClubScreen.kt:55-70 | a load starts from a fresh state; a success lists the clubs and selects the first one; an error shows only its message |
| Clubs.SelectClub | app/src/main/java/com/example/lengua/screen/ClubScreen.kt:72-74 | changes the selection only |
| Clubs.SelectionStaysListed | app/src/main/java/com/example/lengua/screen/ClubScreen.kt:55-74 | the selection is always one of the listed clubs, and after loading a non-empty list something is selected |
| Clubs.DateBadge | app/src/main/java/com/example/lengua/screen/ClubScreen.kt:172 | the timestamp up to the first `T`, or all of it when there is none |
| Clubs.DateBadgeOfTimestamp | app/src/main/java/com/example/lengua/screen/ClubScreen.kt:172 | an ISO timestamp `date T time` shows its date |
| Clubs.ResourceUrl | app/src/main/java/com/example/lengua/screen/ClubScreen.kt:181 | the file URL for a `file` resource, the URL otherwise |
| Clubs.CardOf | app/src/main/java/com/example/lengua/screen/ClubScreen.kt:165-185 | the week label, the date badge and the resource link of one material |
| Clubs.Render | app/src/main/java/com/example/lengua/screen/ClubScreen.kt:104-117 | loading, then the error with retry, then the empty message, then the selector over all clubs and the cards of the selected club's materials |
| Clubs.LoadShowsFirstClub | app/src/main/java/com/example/lengua/screen/ClubScreen.kt:55-117 | right after a successful load of some clubs, the first club's materials are shown |
| Evaluations.StartLoad | app/src/main/java/com/example/lengua/screen/EvaluationsScreen.kt:69 | loading, error cleared, evaluations kept |
| Evaluations.FinishLoad | app/src/main/java/com/example/lengua/screen/EvaluationsScreen.kt:70-77 | a success gives the evaluations with no error; an error gives an empty list and the message; `Loading` has no branch and changes nothing |
| Evaluations.LoadEvaluations | app/src/main/java/com/example/lengua/screen/EvaluationsScreen.kt:67-79 | ends not loading; error iff the repository failed; a list and an error are never held together |
| Evaluations.ReloadForgetsPreviousOutcome | app/src/main/java/com/example/lengua/screen/EvaluationsScreen.kt:67-79 | the state after a load depends only on the backend's answer, not on what was shown before |
| Evaluations.ToInt | app/src/main/java/com/example/lengua/screen/EvaluationsScreen.kt:168 | rounds toward zero and saturates at the 32-bit bounds |
| Evaluations.GradeOf | app/src/main/java/com/example/lengua/screen/EvaluationsScreen.kt:166-173 | the grade is shown as `Int.toString` of the truncated grade (a minus sign before the digits of a negative one), in the passing colour iff the grade is at least 60 |
| Evaluations.PassingMatchesShownNumber | app/src/main/java/com/example/lengua/screen/EvaluationsScreen.kt:166-173 | the colour agrees with the number shown: passing iff the displayed whole number is at least 60 |
| Evaluations.DeadlineText | app/src/main/java/com/example/lengua/screen/EvaluationsScreen.kt:136-145 | the reformatted date when the timestamp parses, the raw text otherwise |
| Evaluations.CardOf | app/src/main/java/com/example/lengua/screen/EvaluationsScreen.kt:147-224 | a grade iff one is present; a description iff it is present and not blank; download iff a non-empty file URL exists; upload iff the status is `pendiente`, ignoring case |
| Evaluations.UploadMatchesPendingBadge | app/src/main/java/com/example/lengua/screen/EvaluationsScreen.kt:212-229 | upload is enabled exactly on the cards whose status badge has the pending colours |
| Evaluations.PendingStyleIffPendiente | app/src/main/java/com/example/lengua/screen/EvaluationsScreen.kt:227-236 | the status badge takes the pending colours exactly for statuses that lower-case to `pendiente` |
| Evaluations.BadgeTextKeepsStyle | app/src/main/java/com/example/lengua/screen/EvaluationsScreen.kt:227-274 | the upper-cased badge text selects the same colours as the status or type it shows |
| Evaluations.Render | app/src/main/java/com/example/lengua/screen/EvaluationsScreen.kt:106-131 | loading, then `Error: <message>`, then the empty message, then one card per evaluation in the order received |
| Text.SubstringBefore | app/src/main/java/com/example/lengua/screen/CreateUserScreen.kt:194 | a prefix without the delimiter, ending right before its first occurrence; the whole string when the delimiter is absent |
| Text.CapitalizeFirst | app/src/main/java/com/example/lengua/screen/ProfileScreen.kt:101 | same length; the first letter upper-cased, the rest unchanged |
| Text.EqualsIgnoreCaseIsLowercaseEquality | app/src/main/java/com/example/lengua/screen/ScheduledClassesScreen.kt:59 | comparing ignoring case is the same as comparing the lower-cased strings |
| Text.EqualsWordIgnoringCase | app/src/main/java/com/example/lengua/screen/ScheduledClassesScreen.kt:59 | a string equals a lower-case word ignoring case exactly when it lower-cases to that word |
| Text.ZeroPad | app/src/main/java/com/example/lengua/screen/ScheduleClassScreen.kt:59 | digits only, with the padded number's value, as wide as the width asks |
| Text.Join | app/src/main/java/com/example/lengua/data/repository/UserRepository.kt:38-41 | no parts give the empty text; one part gives that part; otherwise the text starts with the first part, followed by the separator |
| Text.SplitJoin | app/src/main/java/com/example/lengua/data/repository/UserRepository.kt:38 | splitting a join at a separator character that occurs in no part gives back the parts |
| Collections.Filter | app/src/main/java/com/example/lengua/screen/ScheduledClassesScreen.kt:59-61 | the result holds exactly the elements that pass the test, each passing, and is a subsequence of the input (input order kept); a list whose elements all pass is returned whole |
| Collections.FilterPartition | app/src/main/java/com/example/lengua/screen/ScheduledClassesScreen.kt:59-61 | filtering by a test and by its negation splits a list into two parts whose multisets add up to it |
| Collections.FilterAppend | app/src/main/java/com/example/lengua/screen/ScheduledClassesScreen.kt:59-61 | filtering distributes over concatenation, so order is kept |

## Left out

- Compose layout, theming, icons, navigation graphs and every screen not listed above: no rules, only layout.
- HTTP, Retrofit and JSON decoding: the backend's answer is a parameter, either an exception with an optional message or a status with an optional decoded body.
- The evaluations endpoint decodes only the object-wrapped shape, and a bare list fails inside the `try` as an exception.
- SharedPreferences and `Log`: the session is an `Option<string>` passed in and returned.
- The content resolver: `createPartFromUri` receives a picked file that is already readable or unreadable, with its display name. `getFileNameFromUri` is not part of this model.
- `SimpleDateFormat`: the reparsed date or time in `ScheduleClassViewModel` and the reformatted deadline in `EvaluationsScreen` are parameters. Only their pass-through and fallback rules are modelled.
- Coroutines: each launched block is one atomic step. The intermediate `Loading` value a view model publishes is modelled by the separate start functions where a screen can observe it. The reload that `createUser` or `createMediaItem` launches on success completes within the same step.
- `Float`: grades are exact reals, so 32-bit rounding of the grade is not modelled.
- Evaluations.ToInt: models truncation and saturation, but not `NaN`, which Kotlin maps to 0.
- AdminBlocks.StrLess: compares by code point. Kotlin's `String.compareTo` compares UTF-16 units, and the two orders differ only outside the basic multilingual plane.
- `isBlank`, `lowercase`, `uppercase` and `equals(ignoreCase = true)` use ASCII white space and ASCII case mapping. Kotlin's versions are Unicode-aware.
- The download and upload buttons' actions are TODOs in the app. Only whether they are enabled is modelled.
- `EvaluationsViewModel.kt` re-declares the evaluations state and view model. The screen uses the declarations in `EvaluationsScreen.kt`, which are the ones modelled.
- `SalesRecordViewModel`, `SpecializationsViewModel` and `HomeDashboardScreen` hold mock data or duplicate composables, so they are not part of this model.
- ScheduleClassScreen.PickedDate: the Android pickers supply non-negative values, so negative years, months or days, which `%02d` would print with a minus sign, are not modelled.
- ScheduleClassScreen.PickedDate and ScheduleClassScreen.PickedTime: `String.format` uses the default locale, and the model always writes ASCII digits. In a locale with other digits, such as Arabic, the picked text does not match `\d` and goes through the `SimpleDateFormat` branch. So `ScheduleClassScreen.PickedValuesReachBackend` ("sent exactly as picked") holds only in locales that use ASCII digits.
- ScheduleClassScreen.PickedValuesReachBackend: for the same reason, it is stated for default locales whose digits are ASCII.
- GalleryRepository.CreateMediaItemWithFile: the content resolver is a parameter that yields a part or nothing. An `openInputStream` that throws, for example `FileNotFoundException` on a URI it cannot open, would in the app end in `Error de conexión al subir el archivo: <message>` without an upload. For the thumbnail it would fail the whole upload rather than drop the thumbnail part. That path is not modelled.
- ScheduleClassScreen.SelectAll: the selected-id set is a duplicate-free sequence. `toSet()` iteration order matters only to the request, and the request keeps the order of selection.
