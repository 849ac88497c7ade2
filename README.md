# Custody and logistics engine of clara.vico

This project models the engine behind the clara.vico family calendar in Dafny. Two children, Clara and Vico, live alternately with their mother ("mama") and their father ("papa").

The engine has four parts:

- **Week parity.** `esSemanaParImpar` gives the parity of a date's week. It uses the engine's own week formula, not the ISO 8601 week number.
- **Custody.** `determinarProgenitorDelDia` gives the parent with custody on a date. It looks up the date's weekday name in the even-week or odd-week tenancy table.
- **Daily logistics.** `determinarLogisticaDiaria` plans a day:
  - it keeps the activities that fall on that weekday and groups them by child;
  - it sorts each child's activities by start time;
  - for every activity it emits a drop-off ("llevar") at the start and a pick-up ("recoger") at the end;
  - each child's earliest drop-off goes to yesterday's custodian and everything else to today's;
  - finally it sorts all the obligations by time.
- **Range generation.** `generarEventosCalendario` walks an inclusive date range. For each day it emits one custody event, then that day's obligations as calendar events. Names and colours are looked up with fallbacks: the raw id, `#FFFFFF` for an unknown parent, `#CCCCCC` for an unknown child.

The configuration in `app/lib/calendar-data.ts` is modelled too: its types, the reference data, and the integrity rules the engine silently relies on.

Modules, one file each:

| file | module | contents |
|---|---|---|
| `wrappers.dfy` | `Wrappers` | `Option`, standing for a value or `undefined` |
| `horas.dfy` | `Horas` | "HH:MM" times as pairs of naturals; `convertirHoraAMinutos` |
| `fechas.dfy` | `Fechas` | proleptic Gregorian dates as (year, day of year); ordinal; weekday; next and previous day |
| `arreglos.dfy` | `Arreglos` | `find` (first match); `filter`; `map`; the stable `Array.prototype.sort` as an insertion sort, with its ordering, permutation and stability lemmas |
| `calendar_data.dfy` | `CalendarData` | the configuration types, the integrity predicates, the reference configuration and the proof that it is well formed |
| `custodia.dfy` | `Custodia` | week parity; custody lookup; parent name and colour lookups |
| `logistica.dfy` | `Logistica` | the daily planner as a specification function, its properties, and the imperative planner proved equal to it |
| `eventos.dfy` | `Eventos` | the range generator as a specification function, its properties, and the imperative generator proved equal to it |
| `integridad.dfy` | `Integridad` | with a well-formed configuration, no generated event uses a fallback |
| `escenarios.dfy` | `Escenarios` | worked days of the reference configuration |

The imperative parts keep the source's shape:

- `AgruparPorNino` fills a `map` from child id to occurrences and records the order in which children first appear, as the `forEach`/`push` loop does.
- `OrdenarGrupos` sorts each child's list.
- `EmitirObligaciones`, `EmitirNino` and `EmitirSiguientes` append to the obligation list. `EmitirSiguientes` is the `for` loop from index 1.
- `GenerarEventosCalendario` is the `while` loop that advances the date one day at a time.

Each method is proved equal to a specification function: `LogisticaDiaria`, `EventosRango` and their parts. Lemmas about those functions state the properties.

## Model

| member | source | states |
|---|---|---|
| Horas.ConvertirHoraAMinutos | src/lib/calendar-utils.ts:57-60 | a valid time gives minutes in [0, 1439]; hours and minutes are recovered as quotient and remainder by 60 |
| Horas.DesdeMinutos | src/lib/calendar-utils.ts:57-60 | every minute count in [0, 1439] is the conversion of exactly one valid time (the inverse) |
| Horas.DesdeMinutosDeHora | src/lib/calendar-utils.ts:57-60 | round trip: converting a valid time to minutes and back gives the same time |
| Horas.OrdenDeMinutos | src/lib/calendar-utils.ts:57-60 | comparing minute counts is comparing (hours, minutes) lexicographically; equal counts mean equal times, so sorting by minutes sorts by clock time |
| Fechas.PrimeroDeEnero | src/lib/calendar-utils.ts:81 | `getDay()` of 1 January of every year agrees with Gauss's rule (1 + 5((y−1) mod 4) + 4((y−1) mod 100) + 6((y−1) mod 400)) mod 7; with DiaSemanaSiguiente this fixes the weekday of every date |
| Fechas.DiasConocidos | src/lib/calendar-utils.ts:81 | 1 January 1970 is a Thursday, 1 January 2000 a Saturday, 29 February 2024 a Thursday |
| Fechas.Siguiente | src/lib/calendar-utils.ts:328-330 | `setDate(getDate() + 1)` moves to the date whose ordinal is one higher, across month and year ends |
| Fechas.Anterior | src/lib/calendar-utils.ts:146-149 | `setDate(getDate() - 1)` moves to the date whose ordinal is one lower |
| Fechas.SiguienteAnterior | src/lib/calendar-utils.ts:146-149 | the previous and next day are inverse to each other |
| Fechas.DiaSemanaSiguiente | src/lib/calendar-utils.ts:146-149 | the weekday advances by one from day to day, Saturday wrapping to Sunday |
| Fechas.OrdinalInyectivo | src/lib/calendar-utils.ts:276 | comparing dates is comparing ordinals: equal ordinals mean the same date, and an earlier year means an earlier ordinal |
| Fechas.DiasAntesDeSiguiente | src/lib/calendar-utils.ts:328-330 | consecutive years are 365 or 366 days apart, by the Gregorian leap-year rule |
| Fechas.Avanzar | src/lib/calendar-utils.ts:275-330 | the date reached after n steps of the day loop has an ordinal n higher |
| Custodia.NombreDia | src/lib/calendar-utils.ts:72-81 | the weekday name of a date is one of the seven keys "domingo" … "sabado" |
| Custodia.NumeroSemana | src/lib/calendar-utils.ts:41-47 | the week number is `ceil((getDay() + 1 + dias) / 7)`, the least k with 7k at least that sum, also when the sum is negative |
| Custodia.DiasDelAnioPropio | src/lib/calendar-utils.ts:43-46 | for a year outside 0..99, `dias` is the day of the year |
| Custodia.DiasDeDosCifras | src/lib/calendar-utils.ts:43-46 | for a year in 0..99, `new Date(anio, 0, 1)` builds 1 January of anio + 1900, so `dias` is negative |
| Custodia.EsSemanaParImpar | src/lib/calendar-utils.ts:41-50 | "par" exactly when the week number (NumeroSemana's ceiling) is even, JavaScript's `% 2 === 0` included for negative numbers; SemanaSiguiente shows the parity alternates week by week |
| Custodia.NumeroSemanaAcotado | src/lib/calendar-utils.ts:41-50 | the week number lies one or two above the count of whole weeks in `dias` |
| Custodia.SemanaSiguiente | src/lib/calendar-utils.ts:41-50 | seven days later in the same year: same weekday, week number one higher, parity flipped |
| Custodia.SieteDias | src/lib/calendar-utils.ts:43-47 | seven days later in the same year: same `getDay()` and seven more `dias` |
| Custodia.SemanaRetrocede | src/lib/calendar-utils.ts:41-50 | the formula is not monotone: Saturday 4 January 2025 is in week 2 and Sunday 5 January in week 1 |
| Custodia.DeterminarProgenitorDelDia | src/lib/calendar-utils.ts:68-87 | the result is defined exactly when the weekday key exists in the table chosen by parity; it is then a value of that table; with a complete table it is always defined |
| Custodia.RotacionQuincenal | src/lib/calendar-utils.ts:68-87 | within a year, a week later the custodian is the one the other half of the table names; two weeks later it is the same parent |
| Custodia.CustodiaDeclarada | src/lib/calendar-utils.ts:68-87 | with a complete table whose values are declared parents, every date has a custodian and it is a declared parent |
| Custodia.EncontrarNombreProgenitor | src/lib/calendar-utils.ts:95-101 | the name of the first parent with the id; the id itself (or `undefined`) when there is none |
| Custodia.EncontrarColorProgenitor | src/lib/calendar-utils.ts:109-115 | the background colour of the first parent with the id; "#FFFFFF" when there is none or the id is `undefined` |
| Arreglos.Encontrar | src/lib/calendar-utils.ts:99 | `find`: None only when nothing matches; otherwise an element of the sequence that matches |
| Arreglos.Ordenar | src/lib/calendar-utils.ts:190-192 | the comparator sort `(a, b) => clave(a) - clave(b)` as a stable insertion sort of the same length; OrdenarOrdena, OrdenarPermuta and OrdenarEstable pin it to the unique stable sort |
| Arreglos.OrdenarOrdena | src/lib/calendar-utils.ts:190-192 | the sort's result is in non-decreasing key order |
| Arreglos.OrdenarPermuta | src/lib/calendar-utils.ts:190-192 | the sort's result is a permutation of its input |
| Arreglos.OrdenarEstable | src/lib/calendar-utils.ts:252-256 | the sort is stable: for every key, the elements with that key keep their relative order |
| Arreglos.OrdenarOrdenada | src/lib/calendar-utils.ts:252-256 | a sequence already in key order is left as it is |
| Arreglos.FiltrarOrdenar | src/lib/calendar-utils.ts:252-256 | sorting neither adds nor drops any element that satisfies a property |
| Arreglos.Mapear | src/lib/calendar-utils.ts:300 | one output per input, in order, each the image of its input |
| Logistica.Ayer | src/lib/calendar-utils.ts:146-154 | yesterday's custodian is a full resolution of the previous day; with a complete table it is always defined and is a value of the table |
| Logistica.AyerDeManana | src/lib/calendar-utils.ts:141-154 | tomorrow's "yesterday" is today's custodian |
| Logistica.GrupoSelecciona | src/lib/calendar-utils.ts:169-186 | an occurrence is in a child's group exactly when some activity of that child lists the weekday and has a schedule for it, and the occurrence is that activity's schedule for the day |
| Logistica.ContribuyeConHorarios | src/lib/calendar-utils.ts:170-173 | with complete schedules, only the weekday list decides whether an activity counts |
| Logistica.NinosDistintos | src/lib/calendar-utils.ts:168-186 | the dictionary's keys are listed without repetition, and a child is listed exactly when it has an occurrence that day |
| Logistica.EventosNinoIndices | src/lib/calendar-utils.ts:199-249 | a child with N sorted occurrences gets 2N obligations: at 2i the drop-off at the i-th start, at 2i+1 the pick-up at its end; only the first drop-off is yesterday's parent's |
| Logistica.ObligacionesDelNino | src/lib/calendar-utils.ts:199-249 | before the final sort, a child's obligations are exactly its own block, 2N long for N activities that day |
| Logistica.LogisticaOrdenada | src/lib/calendar-utils.ts:251-256 | the planner's result is in time order, is a permutation of the generated obligations, and keeps their order among obligations at the same minute |
| Logistica.LogisticaCuentaPorNino | src/lib/calendar-utils.ts:199-256 | in the planner's result a child with N activities that day has exactly 2N obligations, and they are its own block's |
| Logistica.EnResultado | src/lib/calendar-utils.ts:199-256 | an obligation is in the planner's result exactly when it is in its child's block |
| Logistica.LogisticaCubreActividades | src/lib/calendar-utils.ts:141-154 | every activity of the day yields its drop-off and its pick-up in the result; each child's earliest drop-off is yesterday's custodian's and the rest today's |
| Logistica.LogisticaSoloActividades | src/lib/calendar-utils.ts:199-247 | nothing else is in the result: each obligation is the drop-off or pick-up of one of its child's activities, and only each child's earliest drop-off goes to yesterday's custodian |
| Logistica.MiembroDeEventosNino | src/lib/calendar-utils.ts:203-247 | each obligation of a child's block is the drop-off or pick-up of one of its occurrences, with the attribution rule |
| Logistica.AgruparPorNino | src/lib/calendar-utils.ts:168-186 | the `forEach` fills the dictionary: its keys are the children with an occurrence that day, in first-appearance order, each mapped to its occurrences in configuration order |
| Logistica.OrdenarGrupos | src/lib/calendar-utils.ts:188-193 | every child's list is replaced by its sorted version and nothing else changes |
| Logistica.EmitirSiguientes | src/lib/calendar-utils.ts:224-247 | the `for` loop from index 1 appends, for each later occurrence in order, its drop-off and pick-up for today's custodian |
| Logistica.EmitirNino | src/lib/calendar-utils.ts:199-249 | appends exactly the child's block: the first occurrence's drop-off for yesterday's custodian, then everything for today's |
| Logistica.EmitirObligaciones | src/lib/calendar-utils.ts:196-249 | appends the blocks of the children in dictionary order |
| Logistica.DeterminarLogisticaDiaria | src/lib/calendar-utils.ts:124-257 | the imperative planner computes exactly the specification `LogisticaDiaria`, whose properties are the lemmas above |
| Eventos.NombreNino | src/lib/calendar-utils.ts:308-316 | the child's name is the first match's, or the child id when no child matches |
| Eventos.ColorNino | src/lib/calendar-utils.ts:308-317 | the activity colour is the first match's, or "#CCCCCC" when no child matches |
| Eventos.Descripcion | src/lib/calendar-utils.ts:322-324 | the text starts with "Llevar a" for a drop-off and "Recoger de" for a pick-up, ends with ")", and is four characters longer than its three parts |
| Eventos.DescripcionLegible | src/lib/calendar-utils.ts:322-324 | the description reads back: its first letter tells drop-off ("Llevar a") from pick-up ("Recoger de"), then a space, the name, " (", the title and the closing ")" |
| Eventos.EventoDeCustodia | src/lib/calendar-utils.ts:291-297 | the custody event is dated on its day and names the day's custodian; with nobody in custody it has no name and a white background; with a complete table someone always has custody |
| Eventos.DiaDelInstante | src/lib/calendar-utils.ts:302-306 | `setHours(horas, minutos, 0, 0)` lands a whole number of days later: one day per 1440 minutes of the time |
| Eventos.SinAcarreo | src/lib/calendar-utils.ts:302-306 | a valid time of day stays on the day the event was generated for |
| Eventos.Acarreo | src/lib/calendar-utils.ts:302-306 | "25:00" carries over into the next day |
| Eventos.EstructuraDelDia | src/lib/calendar-utils.ts:290-326 | a day's events are its custody event first, then one calendar event per obligation of the planner, in the planner's order, each converted from that obligation |
| Eventos.FechaDeConvertidos | src/lib/calendar-utils.ts:302-306 | every calendar event converted from a day's obligations is dated on that day |
| Eventos.CustodiaDelDia | src/lib/calendar-utils.ts:290-297 | each day contributes exactly one custody event, its own |
| Eventos.RangoCustodias | src/lib/calendar-utils.ts:275-332 | over a range of n days there are exactly n custody events, and the i-th is the custody event of the i-th day |
| Eventos.RangoEnOrden | src/lib/calendar-utils.ts:275-332 | every event of a range falls on a day inside the range, and the days never go back along the list |
| Eventos.PrimerDiaDelRango | src/lib/calendar-utils.ts:275-330 | a non-empty range is its first day's events followed by the range from the next day |
| Eventos.RangoDeUnDia | src/lib/calendar-utils.ts:275-332 | a one-day range is that day's custody event followed by its obligations, with exactly one custody event |
| Eventos.RangoVacio | src/lib/calendar-utils.ts:275-276 | a range whose end comes before its start yields no events |
| Eventos.ConvertirUno | src/lib/calendar-utils.ts:300-326 | one iteration of the inner loop builds the calendar event of one obligation, with its lookups and fallbacks |
| Eventos.ConvertirLogistica | src/lib/calendar-utils.ts:300-326 | the inner `forEach` converts every obligation, in order |
| Eventos.EventosDeUnDia | src/lib/calendar-utils.ts:278-326 | one pass of the day loop appends exactly the day's events |
| Eventos.GenerarEventosCalendario | src/lib/calendar-utils.ts:266-333 | the imperative generator computes exactly the specification `EventosRango`, and nothing for an inverted range |
| Integridad.ProgenitorEncontrado | src/lib/calendar-utils.ts:95-115 | a declared parent id is found: its name and colour are a declared parent's |
| Integridad.NinoEncontrado | src/lib/calendar-utils.ts:308-317 | a declared child id is found: its name and colour are a declared child's |
| Integridad.NinoDeUnaActividad | src/lib/calendar-utils.ts:168-247 | every obligation belongs to a child that some activity names |
| Integridad.ProgenitorDeUnaObligacion | app/lib/calendar-data.ts:75-94 | with a complete table of declared parents, every obligation names a declared parent, never `undefined` |
| Integridad.CustodiaSinRespaldo | src/lib/calendar-utils.ts:290-297 | with a well-formed configuration, each custody event shows a declared parent's id, name and colour |
| Integridad.ActividadConDeclarados | src/lib/calendar-utils.ts:300-326 | an obligation for a declared child and a declared parent shows their names and the child's colour |
| Integridad.ObligacionDeclarada | app/lib/calendar-data.ts:51-94 | with a well-formed configuration, the child and the parent of every obligation are declared |
| Integridad.DiaSinRespaldo | src/lib/calendar-utils.ts:278-326 | with a well-formed configuration, no event of a day shows a fallback: each shows a declared parent's id and name, a custody event that parent's colour (never the "#FFFFFF" fallback), and an obligation a declared child's name and colour |
| Integridad.HoraDeUnaObligacion | app/lib/calendar-data.ts:95-177 | with well-timed schedules, every obligation of the planner is at a valid time of day |
| Integridad.DiaSinAcarreo | src/lib/calendar-utils.ts:300-326 | with well-timed schedules, no logistics event of a day is carried by `setHours` into another day |
| Integridad.RangoSinAcarreo | src/lib/calendar-utils.ts:266-333 | with a well-formed configuration, every logistics event of a range lies on the day it was generated for |
| Integridad.RangoSinRespaldo | src/lib/calendar-utils.ts:266-333 | with a well-formed configuration, no event of any range shows a fallback: declared parent id and name, the parent's own colour on custody events, a declared child's name and colour on obligations |
| CalendarData.ReferenciaTablaCompleta | app/lib/calendar-data.ts:75-94 | both halves of the reference tenancy table hold all seven weekdays |
| CalendarData.MamaYPapa | app/lib/calendar-data.ts:63-74 | "mama" and "papa" are declared parents |
| CalendarData.ParesDeclarados | app/lib/calendar-data.ts:76-84 | every even-week custodian is a declared parent |
| CalendarData.ImparesDeclarados | app/lib/calendar-data.ts:85-93 | every odd-week custodian is a declared parent |
| CalendarData.ReferenciaTenenciaDeclarada | app/lib/calendar-data.ts:63-94 | every value of the reference tenancy table is a declared parent |
| CalendarData.ReferenciaColeVico | app/lib/calendar-data.ts:96-109 | "Cole Vico" has a schedule for every listed weekday, starts before it ends, and names a declared child and type |
| CalendarData.ReferenciaColeClara | app/lib/calendar-data.ts:110-123 | the same for "Cole Clara" |
| CalendarData.ReferenciaIdiomas | app/lib/calendar-data.ts:124-143 | the same for both English classes |
| CalendarData.ReferenciaFutbol | app/lib/calendar-data.ts:144-154 | the same for football |
| CalendarData.ReferenciaBaile | app/lib/calendar-data.ts:155-165 | the same for dance |
| CalendarData.ReferenciaEdFisica | app/lib/calendar-data.ts:166-176 | the same for physical education |
| CalendarData.ReferenciaActividades | app/lib/calendar-data.ts:95-177 | every reference activity has a schedule for each listed weekday, starts strictly before it ends, and names a declared child and a declared activity type |
| CalendarData.ReferenciaIdsUnicos | app/lib/calendar-data.ts:95-177 | no two reference activities share an id |
| CalendarData.ReferenciaBienFormada | app/lib/calendar-data.ts:50-196 | the reference configuration satisfies every integrity rule |
| Escenarios.LunesDeSemanaPar | src/lib/calendar-utils.ts:41-50 | Monday 13 January 2025 and the Sunday before it are both in even weeks |
| Escenarios.CustodiaDelLunes | src/lib/calendar-utils.ts:68-87 | under the reference table, that Monday is papa's and the Sunday before is mama's |
| Escenarios.ColeVicoSeleccionado | src/lib/calendar-utils.ts:168-193 | on Mondays "Cole Vico" is selected, and Vico is the only child listed |
| Escenarios.ColeVicoObligaciones | src/lib/calendar-utils.ts:199-249 | that Monday, mama (Sunday's custodian) drops Vico off at school and papa picks him up |
| Escenarios.ColeVicoElLunes | src/lib/calendar-utils.ts:124-257 | the planner's result for that Monday is exactly those two obligations, in time order |
| Escenarios.DosActividadesAgrupadas | src/lib/calendar-utils.ts:168-186 | two activities on one day are grouped in configuration order, under one child |
| Escenarios.DosActividadesOrdenadas | src/lib/calendar-utils.ts:188-193 | sorting by start time puts the morning activity first |
| Escenarios.DosActividadesAtribuidas | src/lib/calendar-utils.ts:199-247 | only the morning drop-off is yesterday's custodian's; the other three obligations are today's |
| Escenarios.DosActividadesObligaciones | src/lib/calendar-utils.ts:196-249 | the generated obligations of the two-activity day are those four |
| Escenarios.DosActividadesElLunes | src/lib/calendar-utils.ts:124-257 | the planner's result for the two-activity day is those four, in time order |
| Escenarios.ReferenciaSinRespaldo | src/lib/calendar-utils.ts:266-333 | every event generated from the reference configuration shows configured names and colours, custody events in their parent's own colour |

## Left out

- JavaScript `Date` internals are not modelled: milliseconds, the local time zone and daylight saving time. A date is a proleptic Gregorian (year, day of year), and `getDay()` is derived from its ordinal. The parity formula's `dias` counts whole days from the 1 January that `new Date(year, 0, 1)` builds, so a year in 0..99 counts from 1 January of year + 1900, as JavaScript does (Custodia.DiasDeDosCifras). The source computes `dias` as `floor((date − 1 January) / 86400000)` in local time. In a zone with daylight saving time whose 1 January is in standard time, that span is one hour short of whole days for every date in summer time, so the source's `dias` is one lower than the model's from the spring change to the autumn change. That flips the week parity, and hence the custodian, on one weekday of every week of that period: in Europe/Madrid in 2025 it is every Friday, and on Friday 11 July 2025 the source computes week 28 (even) where the model computes week 29 (odd).
- Eventos.GenerarEventosCalendario: the loop test `fechaActual <= fechaFin` compares whole timestamps. The model compares calendar days only. When the start's time of day is later than the end's, the source skips the end's calendar day and the model includes it.
- `setHours(horas, minutos, 0, 0)` is modelled as pairing the date with the obligation's `Hora`. No timestamp is computed. `DiaDe` is the day an event was generated for. `DiaDelInstante` is the calendar day `setHours` would land on, carrying hours past 23 into later days. The two agree for every valid time, and so for every event of a well-formed configuration.
- Eventos.FechaDeConvertidos, Eventos.FechaDelDia and Eventos.RangoEnOrden speak of `DiaDe`, the day of generation. For a time past 23:59 the instant itself lands later; Integridad.RangoSinAcarreo rules that out for well-formed configurations.
- Years beyond the range of a JavaScript `Date` (about 275,000 years either side of 1970) are not excluded: `Fecha` admits every integer year.
- Times are modelled as the two numbers that `split(":")` and `parseInt` extract. Malformed "HH:MM" strings and `NaN` minutes are not modelled.
- `undefined` is modelled as `Option.None`. The truthiness test `actividad.horarios[diaSemana]` is modelled as key membership, because a stored `Horario` is always an object.
- Logistica.AgruparPorNino: groups every child id alike. In the source the grouping dictionary is a plain JavaScript object, so a child id naming an inherited `Object.prototype` member ("constructor", "toString", "__proto__", …) makes the `!actividadesDiarias[id]` test at calendar-utils.ts:174 see the inherited value, no array is created, and the `push` at calendar-utils.ts:178 throws a TypeError out of `determinarLogisticaDiaria` and `generarEventosCalendario`. The model has no such exception and agrees with the source only for child ids that are not such names, as in the reference configuration.
- `Object.keys` order is modelled as insertion order. JavaScript lists keys that look like array indices first, in numeric order; the child ids in use are not of that kind.
- Colours and other strings are compared only for equality, never parsed.
- The `tipo` of an activity is carried through grouping, but no obligation uses it. The source does the same.
- The React views (both `calendario-mensual.tsx` files), the weekend panel `app/calendar/info-fin-de-semana.tsx` with its separate weekend rule, `app/layout.tsx` and `app/page.tsx` are not part of this model. They render or summarise the engine's output.
- The week formula is kept as written, not replaced by the ISO 8601 week number. Custodia.SemanaRetrocede records that it can go back from Saturday to Sunday.
