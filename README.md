# sqlx query builder, constructor revision

This project models the `QueryBuilder` of `sqlx-core` in the revision where
it is a struct with a single `query: String` field holding the SQL text
under construction, and one operation, `QueryBuilder::new`, which stores the
caller's initial text unchanged. The Rust struct literal becomes a Dafny
datatype with one field, `new` becomes the total function `New`, and the
`test_new` unit test becomes a method that returns the text it inspects.

Everything is in `query_builder.dfy`, module `QueryBuilder`.

The `impl Into<String>` parameter of `new` is modelled as a plain `string`
input: the conversion belongs to the Rust standard library, not to this
code.

## Model

| member | source | states |
|---|---|---|
| `QueryBuilder.New` | sqlx-core/src/query_builder.rs:6-8 | the new builder's text is exactly the input, of the same length; no precondition and no error result, so construction always succeeds |
| `QueryBuilder.NewCopiesText` | sqlx-core/src/query_builder.rs:7 | the stored text agrees with the input character for character, judged by a separate position-by-position definition (`SameText`) |
| `QueryBuilder.SameTextIsEquality` | sqlx-core/src/query_builder.rs:7 | that position-by-position agreement holds in exactly the cases where the two texts are equal, in both directions |
| `QueryBuilder.NewAddsNothing` | sqlx-core/src/query_builder.rs:7 | no prefix, separator or suffix is added: if the stored text splits as prefix, input, suffix, both extra parts are empty |
| `QueryBuilder.NewInjective` | sqlx-core/src/query_builder.rs:1-3 | two builders made from equal texts are equal, and builders made from different texts differ |
| `QueryBuilder.NewReachesEveryBuilder` | sqlx-core/src/query_builder.rs:1-3 | the text is the builder's entire state: every builder value is what `New` makes from some text (its own) |
| `QueryBuilder.TestNew` | sqlx-core/src/query_builder.rs:15-18 | a builder started from the empty text holds the empty text |

## Left out

- `Into<String>` conversion of the argument of `new`: a standard-library trait; the model takes the `string` directly.
- `push`, `push_bind`, `build`, the placeholder counter, the argument buffer, value encoders and backend generics: this revision of `sqlx-core/src/query_builder.rs` has none of them, so there is nothing to model them from.
- Rust's `String` is UTF-8 bytes; the model stores a sequence of characters. Because `new` copies the text unchanged, the two views give the same results here.
- `examples/contacts/src/main.rs`: an asynchronous benchmark program (connection pool, network I/O, spawned tasks joined through one-shot channels, random test data, wall-clock timing, printing). It does not use the query builder and is not part of this model.
