# Gestora ledger model

A Dafny model of the bookkeeping core of the Gestora personal-finance app
(`GestorApp` in `main.py`). The app keeps one JSON document with four
append-only lists and one flag:

- expenses (`gastos`);
- incomes (`ingresos`);
- debtors (`deudores`);
- savings goals (`metas`);
- the daily-analysis permission (`analisis_perm`).

Form actions append records to the lists, and every change writes the whole
document back. The menu shows the balance, a tip of the day and text
summaries of the last 100 records of each list. The analysis screen reports
which category took the most money on a given day.

The model has four modules:

- `Registros` (`registros.dfy`):
  - the records and the document;
  - `DEFAULT_DATA`;
  - the records the four add actions build, with their defaults.
- `Resumen` (`resumen.dfy`): what the screens show, computed from the
  document:
  - the balance;
  - the `[-100:]` window;
  - `"\n".join` and its inverse `split`;
  - the `:.2f` amount text and its read-back;
  - the four summaries and their placeholders;
  - the tip of the day;
  - the ON/OFF label.
- `Analisis` (`analisis.dfy`): the day analysis:
  - a specification `EsMasGastado` of the category the analyzer must report;
  - the grouping loop as a method over a map plus the key order (the
    insertion order of a Python dict);
  - the first-maximum loop, which is what `max(d, key=d.get)` returns;
  - the lemmas joining the two loops to the specification.
- `Gestor` (`gestor.dfy`): the app object, a class:
  - fields for the document, the saved copy (ghost) and the day of the last
    screen refresh;
  - one method per action.

Record fields are `Option`s because a document read back from storage may
lack any key. Each reader supplies the same default as the source's
`.get(key, default)`. A missing category therefore prints as `?` in the
expense summary but counts as `General` in the analysis, as in the source.

## Model

| member | source | states |
|---|---|---|
| Gestor.GestorApp.constructor | main.py:48-53 | First run: the default document (four empty lists, permission off) becomes both the stored and the in-memory document, and the screens are drawn for the current day |
| Gestor.GestorApp.Reanudar | main.py:54-56 | A later run: the stored document read back becomes the in-memory one, unchanged |
| Gestor.GestorApp.Guardar | main.py:60-62 | Saving writes the whole current document: the saved copy equals it afterwards |
| Gestor.GestorApp.Actualizar | main.py:68-78 | A refresh redraws the screens for the given day; what they show is `Vista()`, which is `Refrescar` of the document and that day |
| Gestor.GestorApp.AddGasto | main.py:110-119 | The method may write only the expense list, the saved copy and the refresh day, so the analysis text is untouched. An amount that does not convert changes nothing, saved copy included. Otherwise exactly one expense, built by `NuevoGasto`, is appended; the other lists and the flag are unchanged; the document is saved and the screens are refreshed; the balance drops by the amount |
| Gestor.GestorApp.AddIngreso | main.py:121-130 | The same for incomes, built by `NuevoIngreso`; the balance rises by the amount |
| Gestor.GestorApp.AddDeudor | main.py:132-139 | The same for debtors, built by `NuevoDeudor`; the balance is unchanged |
| Gestor.GestorApp.AddMeta | main.py:141-148 | The same for goals (the target is the converted field), built by `NuevaMeta`; the balance is unchanged |
| Gestor.GestorApp.ToggleAnalisis | main.py:150-153 | The permission flips and nothing else in the document changes; it is saved; only the flag and the saved copy may be written, so no full refresh happens and the analysis text is untouched |
| Gestor.ToggleTwice | main.py:150-152 | Toggling twice restores the document, and the saved copy matches it |
| Gestor.GestorApp.AnalizarDia | main.py:155-173 | Permission off: the result is "permission disabled". The day is the given date, or today's when empty. No expense on that day: "no expenses on <day>". Otherwise the reported category and total are the ones `EsMasGastado` singles out. The screen text is `Mensaje` of the result |
| Registros.NuevoGasto | main.py:115-117 | The appended expense keeps the amount and note. An empty category becomes "General", an empty date becomes today's, and non-empty ones are kept |
| Registros.NuevoIngreso | main.py:126-128 | An empty source becomes "Ingreso", an empty date becomes today's, and non-empty ones are kept |
| Registros.NuevoDeudor | main.py:137 | An empty name becomes "Sin nombre" and an empty payment date becomes "?"; amount and excuse are kept |
| Registros.NuevaMeta | main.py:146 | An empty title becomes "Meta"; the target is kept |
| Resumen.BalanceAddGasto | main.py:69 | Appending an expense lowers the menu total by exactly its amount (a missing amount counts 0) |
| Resumen.BalanceAddIngreso | main.py:69 | Appending an income raises the menu total by exactly its amount |
| Resumen.BalanceOrderIndependent | main.py:96 | The total depends only on the multisets of incomes and expenses, not on their order |
| Resumen.SumOfPermutation | main.py:69 | A sum over a list equals the sum over any permutation of it |
| Resumen.Ultimos | main.py:82 | `[-100:]` keeps the last min(n, 100) elements, in order |
| Resumen.UltimosLineas | main.py:82 | Formatting every record and then windowing equals formatting the window |
| Resumen.SplitJoin | main.py:82 | Joining lines that contain no newline with "\n" and splitting at newlines gives back the same lines |
| Resumen.ResumenCubreUltimos | main.py:82-92 | An empty list shows its placeholder. Otherwise, when no record's line is empty or contains a newline, the summary splits into exactly one line per record among the last min(n, 100), oldest first |
| Resumen.ResumenGastosCubre | main.py:82-83 | The expense summary is "Sin gastos aún." when there are none, else, when no date, category or note contains a newline, one line per expense of the window |
| Resumen.ResumenIngresosCubre | main.py:85-86 | The income summary is "Sin ingresos aún." when there are none, else, when no date, source or note contains a newline, one line per income of the window |
| Resumen.ResumenDeudoresCubre | main.py:88-89 | The debtor summary is "Sin deudores." when there are none, else, when no name, payment date or excuse contains a newline, one line per debtor of the window |
| Resumen.ResumenMetasCubre | main.py:91-92 | The goal summary is "Sin metas aún." when there are none, else, when no title contains a newline, one line per goal of the window |
| Resumen.Money | main.py:82 | `:.2f` gives an optional leading '-', at least one digit, a point and exactly two digits, and nothing else |
| Resumen.MoneyCentavos | main.py:82 | The `:.2f` text reads back as the amount rounded to whole cents |
| Resumen.MoneyDoceYMedio | main.py:82 | 12.5 is written "12.50" |
| Resumen.TipIndice | main.py:106 | The tip index is always a valid position among the five tips |
| Resumen.TipPeriodico | main.py:98-107 | The tip of the day repeats every five days |
| Resumen.TipsCubreCiclo | main.py:98-107 | Any five consecutive days show every tip |
| Resumen.PermisoTexto | main.py:78 | The label is "ON" exactly when the permission is on and "OFF" exactly when it is off |
| Resumen.Refrescar | main.py:68-96 | The redrawn menu total is the balance, the tip is one of the five tips, and the label is "ON" exactly when the permission is on |
| Resumen.RefrescarSoloPermiso | main.py:150-153 | Changing only the permission changes only the label among all the views, so redrawing just the label is a full refresh |
| Analisis.MasGastadoUnico | main.py:170 | With ties going to the category seen first that day, at most one category and total fit the specification |
| Analisis.OtroDiaAlFinal | main.py:163-164 | A turn of the grouping loop on an expense of another day keeps the grouping complete for the longer prefix |
| Analisis.SumaAlFinal | main.py:165-166 | A turn on a category already seen adds the amount to its entry and keeps the grouping complete |
| Analisis.NuevaAlFinal | main.py:165-166 | A turn on a new category creates its entry and puts it last in the key order, keeping the grouping complete |
| Analisis.Agrupar | main.py:162-166 | Grouping is complete: a category is a key exactly when an expense of that day has it, and its entry is that category's total. The keys are listed once each, in the order of their first expense |
| Analisis.PrimeroMaximo | main.py:170 | The position returned has the largest total, and every earlier key has a strictly smaller one |
| Analisis.SinClaves | main.py:167-168 | An empty grouping means no expense falls on that day |
| Analisis.PrimeroMaximoEsMasGastado | main.py:162-171 | The first key of largest total over a complete grouping is the category the specification requires, with its total |
| Analisis.Mensaje | main.py:157-172 | The three outcomes give texts that start differently ("Permiso…", "Sin gastos…", "El …"), so the screen tells them apart |
| Analisis.EjemploComida | main.py:162-172 | Expenses of 10 and 5 in "Food" and 8 in "Transport" on one day make the analysis report "Food" with 15 |

## Left out

- The Kivy user interface is left out: the screens, the splash screen, navigation and the `.kv` layout. Their effect is modelled as the `Pantalla` value, which `Vista()` derives from the document.
- File I/O is abstract: the ghost `persisted` field stands for the file's contents. The corrupt-file fallback (the default document is used but not written) and I/O errors are not modelled.
- A stored document is assumed to have the four lists and a boolean flag. A missing list key (a `KeyError` in the source) is not modelled. A record field of the wrong JSON type, which would make `sum` or `float` raise, is not modelled either.
- `float(text)` is the class constant `parse`, left abstract. Amounts are exact reals, so binary floating-point rounding is not modelled. Python also accepts "nan", "inf" and overflowing texts such as "1e400" and appends records holding NaN or infinity. A `real` cannot hold these values, so the model does not capture such records or the totals and texts they produce.
- Resumen.Money: rounds half up on the exact value. Python formats the nearest binary float with round-half-even, and prints "-0.00" for tiny negative amounts where the model prints "0.00".
- `_hoy()` and `date.today().toordinal()` are the parameters `hoy` and `ordinal`. The model does not relate the two.
- Gestor.GestorApp.Actualizar: records only the refresh day. The screens are the function `Vista()` of the document and that day, not stored copies, and the menu total computed twice in the source is one value here.
- Gestor.GestorApp.ToggleAnalisis: states the document change. That redrawing only the label matches a full refresh is the separate lemma `RefrescarSoloPermiso`.
- Analisis.Mensaje: the full texts are the function's body. Its contract only says that the three outcomes are told apart.
