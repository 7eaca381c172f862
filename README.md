# heatpot and geometry type tags

This project models two small pieces of simreprap.

The first is the heatpot, a simavr peripheral that simulates a heating element. It keeps a table of heat costs, one slot per source peripheral. Other peripherals overwrite their slot with a tally message. A periodic timer recomputes the temperature from the summed weight of the table, the gap to the ambient baseline and a small random perturbation. It then raises the new temperature, scaled by 256, and re-arms itself one period later. `heatpot.dfy` models this as the class `Heatpot.Heatpot`, with the tally table as an array field, one method per C function, plus `Weight` for the summing loop. Pure functions specify the methods: `Sum` gives the weight, `Noise` the perturbation, `NextTemperature` the recompute step, `NextFire` the re-arm time and `ApplyTallies` a series of tallies. Lemmas then state what the source promises about those functions.

The second is the libc3 geometry type tag. The `C3_TYPE` macro packs four characters big-endian into a 32-bit tag, and `c3geometry_type` builds a type record from a tag. `c3geometry.dfy` models them over `bv32`, as in the source, and proves the numeric value of the tag, byte placement, injectivity and the distinctness of the two named tags.

Modelling choices:
- Floats are `real`, so the arithmetic is exact.
- The `random()` draw is a parameter `r` in `0..31`.
- The 64-bit cycle counter is `nat`.
- The tally table's capacity comes from `ARRAY_SIZE` over a struct in `heatpot.h`, which is not part of this model, so it is a constructor parameter.
- The resample period comes from `avr_usec_to_cycles`, a simulator call, so it is a constructor parameter too. Its type `Period` is a positive number of cycles, so the timer always re-arms in the future.
- The C field `type` of the geometry record is named `kind`, because `type` is a Dafny keyword.

## Model

| member | source | states |
|---|---|---|
| Heatpot.Heatpot.Init | src/heatpot.c:80-97 | after init the name, ambient and period are the given ones, the current temperature equals ambient, every tally slot is 0 and so the weight is 0 |
| Heatpot.SumZero | src/heatpot.c:87 | a table of zero costs, which is what the memset leaves, weighs exactly 0 |
| Heatpot.Heatpot.Tally | src/heatpot.c:99-106 | slot `sid` now holds `cost`, every other slot keeps its value, only the table is modified (current, ambient and period are unchanged) and the weight changes by exactly new minus old cost; `sid` must be in range because the source does not check it |
| Heatpot.Heatpot.TallyInHook | src/heatpot.c:64-74 | applying one decoded (sid, cost) message leaves the table that `ApplyTallies` gives for that message |
| Heatpot.SumUpdate | src/heatpot.c:39-42 | overwriting one slot changes the sum by exactly the difference of the two costs, so re-tallying the cost a slot already holds leaves the weight alone |
| Heatpot.TallyLastWriteWins | src/heatpot.c:105 | after any series of tallies, each slot holds the cost of the latest message addressed to it, or its earlier cost if no message was |
| Heatpot.TallyTwice | src/heatpot.c:105 | two successive tallies to one slot leave only the second cost, and the weight counts the second cost only |
| Heatpot.Heatpot.Weight | src/heatpot.c:39-42 | the loop's accumulated weight is exactly the sum of every slot's cost at the time of the call |
| Heatpot.Noise | src/heatpot.c:45 | the perturbation is the draw recentred on 16 and scaled by 1/32, and lies in [-0.5, 0.5) |
| Heatpot.NextTemperature | src/heatpot.c:44-55 | if the noise-adjusted gap is negative, the temperature strictly rises and the gap to the noisy baseline shrinks to 9/10, so it never overshoots; otherwise it moves by exactly +0.1 when the weight is positive and -0.1 when the weight is zero or negative; it rises exactly when the gap is negative or the weight is positive |
| Heatpot.WeightOnlyBySign | src/heatpot.c:48-54 | two weights of the same sign give the same new temperature, so the weight-dependent value computed at line 48 and then overwritten has no effect |
| Heatpot.Scenarios | src/heatpot.c:44-55 | with no noise: 20 at ambient 20 with no heat gives 19.9; with a cost of 5 it gives 20.1; 10 at ambient 20 gives 11 for every weight `w` |
| Heatpot.Heatpot.EvaluateTimer | src/heatpot.c:31-62 | the new temperature is `NextTemperature` of the old one, the ambient baseline and the table's sum (the dead line-48 value is computed and overwritten, as in the source); only `current` changes; the raised value is the new temperature times 256; the next fire time is `when + cycle`, strictly later than `when` because the period is positive |
| Heatpot.FireTimesNoDrift | src/heatpot.c:61 | over k successive re-arms from `start`, the i-th fire time is exactly `start + i * cycle`, so the timer does not drift |
| Heatpot.FireTimesIncreasing | src/heatpot.c:61 | each re-arm time is strictly later than the previous one, so the self-rearming timer always fires again in the future |
| C3Geometry.C3Type | shared/libc3/src/c3geometry.h:72-73 | shifting the tag right by 24, 16, 8 and 0 bits and masking with 0xFF gives back `a`, `b`, `c` and `d`; its numeric value and injectivity are the lemmas `C3TypeValue` and `C3TypeInjective` |
| C3Geometry.C3TypeValue | shared/libc3/src/c3geometry.h:72-73 | as an unsigned number, the packed tag is `a*2^24 + b*2^16 + c*2^8 + d` (so it fits the 32-bit result) |
| C3Geometry.C3TypeInjective | shared/libc3/src/c3geometry.h:72-73 | two byte quadruples give the same tag if and only if they are equal |
| C3Geometry.NamedTypes | shared/libc3/src/c3geometry.h:76-79 | the raw and triangle tags differ, and their top bytes are 'r' and 't' |
| C3Geometry.GeometryTypeIdentifiesCode | shared/libc3/src/c3geometry.h:214-221 | the type field of a record built from a four-character tag identifies the code: two such records have equal types if and only if their codes are equal, whatever their subtypes |

## Left out

- IEEE-754 single-precision rounding, the inexactness of 0.1, and the float-to-`uint32_t` conversion of `current * 256` when it is raised. The model works over exact reals.
- The global `random()` generator. Its draw modulo 32 is the parameter `r`.
- The simulator calls `avr_alloc_irq`, `avr_irq_register_notify`, `avr_raise_irq`, `avr_usec_to_cycles` and `avr_cycle_timer_register_usec`. They are foreign code. The raised value is returned as `tempOut`, and the period is given to the constructor. The first timer registration is not modelled. That includes its delay: line 94 passes `p->cycle`, already in cycles, to a function whose name says it takes microseconds. If that function converts again, the first firing is not one period after init. Its body is not part of this model, so this cannot be settled here. The no-drift property is stated from the first firing on.
- The bit-level decode of the 32-bit tally word through the `heatpot_data_t` union. `heatpot.h` is not part of this model, and the decode reinterprets float bits. `TallyInHook` takes the already-decoded message.
- The `avr` back-pointer and the `strcpy` of the name into a buffer of unseen size. The name is an immutable `string` field.
- The width of the source id. The C parameter is `uint8_t`; the model takes a `nat` below the table's capacity.
- Wrap-around of the 64-bit cycle counter in `when + cycle`.
- Heatpot.Heatpot.Init: allocates a fresh table instead of zeroing a record the caller owns.
- C3Geometry.MakeGeometryType: states nothing about `subtype`, because the `C3APIO` conversion is defined outside this header. The model carries the `int` as given.
- Sign extension of signed `char` arguments to `C3_TYPE`. Where `char` is signed, a `_b`, `_c` or `_d` of 0x80 or above is sign-extended when converted to 32 bits. Its extended high bits then overwrite the bytes above it: `(uint32_t)(char)0x80 << 16` is `0xFF800000`. Only `_a` is safe, because the shift by 24 discards the extended bits. All four arguments are therefore modelled as unsigned bytes (`bv8`), which is what the named tags pass.
- The rest of `c3geometry.h`: buffer, material and geometry structs, the `DECLARE_C_ARRAY`/`IMPLEMENT_C_ARRAY` arrays, and the bodiless declarations (`c3geometry_new`, `c3geometry_init`, `c3geometry_dispose`, `c3geometry_project`, `c3geometry_draw`, `c3geometry_set_dirty`, `c3geometry_factor`, `c3geometry_get_custom`). They are data layout, or declarations whose bodies are not in the header.
