# fms-hf-tuning: launch arguments, config overrides and the vision label collator

This project gives Dafny models of three small pieces of logic in the fms-hf-tuning
fine-tuning toolkit, and proves properties of each.

- **Launch-argument synthesis.** This is `process_accelerate_launch_args`. The `accelerate_launch_args` map of a job configuration becomes the argument list of the distributed launcher. The list is built in three parts:
  - one or more tokens per user option, chosen by the kind of option it is in the launcher's parser (append, store, store-true, store-false, other);
  - the process topology: `--config_file` and `--num_processes` under `multi_gpu`, or a single process otherwise;
  - finally the training script.

  The model is the method `LaunchArgs.ProcessAccelerateLaunchArgs`, whose loops build a `seq<string>`. It is proved equal to the function `LaunchArgs.LaunchTokens`. The lemmas about that function cover token order, precedence, the error cases, and what a "last occurrence wins" reading of the list yields. That last part restates the repository's launch-argument tests.
- **Config overrides.** `update_config` applies keyword arguments to configuration objects, and `create_tuning_config` picks the configuration class for a PEFT method name.
  - An object is a `ConfigUpdate.Config` (class name and a field map). Its `Update` method runs the keyword loop.
  - Lists and tuples are a `Target` tree. `UpdateConfig`/`UpdateItems` walk it recursively.
  - Both are proved against the functions `ApplyKwargs` and `Run`.
  - Lemmas describe these functions without their loop: the last write wins, untouched fields are kept, failure happens exactly on a key with two or more dots, and updating is idempotent.
- **Label masking.** This is `VisionDataCollator.__call__`. It clones the batch's `input_ids` tensor (a `array2<int>`), replaces the pad-token id and the image-token id with -100 in place, and stores the result under `labels` in the same batch object.

Python values (None, bool, int, str, list, dict) are the datatype `PyValues.Value`. A dict is its sequence of entries in insertion order. `PyValues` also defines Python truthiness, `str()`, `str.split(".")`, and the decimal parse applied to integer options.

## Model

| member | source | states |
|---|---|---|
| PyValues.Truthy | tuning/utils/config_utils.py:106-131 | Python truthiness as the code tests it (lines 106, 112-113, 122, 124, 131): None, False, 0, "" and empty containers are false, everything else is true |
| PyValues.Str | tuning/utils/config_utils.py:111-120 | `str(v)` of an option value: a string is itself, an integer its decimal numeral, a boolean "True"/"False", None "None", and a list or dict shows the `repr` of its elements; `StrIntParses` reads a numeral back |
| PyValues.SplitDots | tuning/utils/config_utils.py:39 | `k.split(".")` always yields at least one piece; its count and contents are stated by `SplitDotsCount` and `JoinSplitDots` |
| PyValues.Get | tuning/utils/config_utils.py:105 | `d.get(key)` is present exactly when some entry has that key, and then it is that entry's value |
| PyValues.ParseIntToString | tuning/utils/config_utils.py:131-141 | parsing the numeral `str()` writes for any integer (the GPU count, or 1) gives that integer back |
| PyValues.SplitDotsCount | tuning/utils/config_utils.py:39 | `k.split(".")` yields one more piece than `k` has dots, and no piece contains a dot |
| PyValues.JoinSplitDots | tuning/utils/config_utils.py:39 | joining the pieces of `k.split(".")` with "." gives back `k` |
| ConfigUpdate.KeyEffect | tuning/utils/config_utils.py:35-45 | a key that is an attribute sets that attribute; a key without a dot that is not an attribute changes nothing; the split raises exactly for a non-attribute key with two or more dots; only existing attributes are ever set |
| ConfigUpdate.DottedKeyOwnClass | tuning/utils/config_utils.py:37-45 | `Class.param` for the object's own class sets `param` when the object has it, and otherwise only warns |
| ConfigUpdate.DottedKeyOtherClass | tuning/utils/config_utils.py:37-40 | `Other.param` for a different class changes nothing |
| ConfigUpdate.Step | tuning/utils/config_utils.py:35-45 | one keyword on one object: it fails exactly when its split raises, and each attribute then holds the keyword's value if the keyword writes it, else its old value; no attribute is added |
| ConfigUpdate.ApplyKwargs | tuning/utils/config_utils.py:34-45 | the keywords applied in order to one object, stopping at the first split that raises; the set of attributes never changes (the rest of its meaning is `ApplyKwargsMeaning`) |
| ConfigUpdate.FirstFailure | tuning/utils/config_utils.py:34-39 | the index of the first keyword whose split raises: no keyword before it raises, and the keyword at it does |
| ConfigUpdate.LastWrite | tuning/utils/config_utils.py:34-42 | the value of the last keyword that writes an attribute: present exactly when some keyword writes it, and no later keyword writes it |
| ConfigUpdate.ApplyKwargsMeaning | tuning/utils/config_utils.py:34-45 | one object's update succeeds exactly when no split raises; each attribute then holds the last value written to it before the first failure, or its old value |
| ConfigUpdate.ApplyKwargsOk | tuning/utils/config_utils.py:34-39 | the update succeeds exactly when every key either is an attribute or has fewer than two dots |
| ConfigUpdate.ApplyKwargsIdempotent | tuning/utils/config_utils.py:34-42 | applying the same keyword arguments to the result again gives the same fields and success |
| ConfigUpdate.UntouchedFieldKept | tuning/utils/config_utils.py:34-45 | an attribute that no keyword writes keeps its value |
| ConfigUpdate.PlainKeySetsField | tuning/utils/config_utils.py:35-36 | a key naming an attribute leaves that attribute holding its value unless a later keyword writes the same attribute, provided no split raises before it (a split raising after it does not undo the write) |
| ConfigUpdate.ApplyKwargsStops | tuning/utils/config_utils.py:39 | once a split has raised, the keyword arguments after it have no effect |
| ConfigUpdate.Config.Update | tuning/utils/config_utils.py:33-45 | the keyword loop on one object leaves its fields and its success as `ApplyKwargs` gives them |
| ConfigUpdate.Run | tuning/utils/config_utils.py:29-45 | the objects a call reaches, updated in visiting order and stopping at the first split that raises; objects not visited keep their fields, and no object gains or loses an attribute |
| ConfigUpdate.RunUpdatesEach | tuning/utils/config_utils.py:29-36 | in a successful traversal every object visited holds its fields updated exactly once by the keyword arguments, even when the same object is reached twice |
| ConfigUpdate.RunOk | tuning/utils/config_utils.py:29-39 | a traversal succeeds exactly when the keyword arguments succeed on each object it visits |
| ConfigUpdate.RunIdempotent | tuning/utils/config_utils.py:29-42 | running a traversal again from the state it left changes nothing, and gives the same success; this holds when it stopped at a split failure too |
| ConfigUpdate.UpdateConfig | tuning/utils/config_utils.py:29-45 | after `update_config` on an object or a nested list, every reached object holds the state `Run` gives, with the same success; on success each object holds its own fields updated by the keyword arguments |
| ConfigUpdate.UpdateItems | tuning/utils/config_utils.py:30-32 | walking a list element by element calls `update_config` on each element in order; this equals `Run` over the objects in visiting order and stops at the first split failure |
| ConfigUpdate.TuningConfigClass | tuning/utils/config_utils.py:57-70 | the method name is rejected exactly when it is outside {None, "lora", "pt", "None"}; "lora" selects LoraConfig, "pt" selects PromptTuningConfig, and None or "None" selects full tuning |
| ConfigUpdate.CreateTuningConfig | tuning/utils/config_utils.py:48-71 | the result is the assertion failure for an unknown method name and None for full tuning; otherwise it is a fresh object of the selected class holding its defaults updated by the keyword arguments, or the update's failure |
| LaunchArgs.Elements | tuning/utils/config_utils.py:110 | `for x in val` visits the items of a list, the characters of a string or the keys of a dict, and raises for anything else |
| LaunchArgs.KeyTokens | tuning/utils/config_utils.py:108-120 | a store option gives `--key str(val)`; store-true, store-false and unknown options give exactly `--key`, even a store-true option set to false; an append option gives `AppendTokens` of its elements, and fails exactly when its value is not iterable, with an error that names the key |
| LaunchArgs.AppendTokensPairs | tuning/utils/config_utils.py:109-111 | an append option gives the pair `--key`, `str(x)` for each element in order (nothing for an empty list) |
| LaunchArgs.UserTokens | tuning/utils/config_utils.py:108-120 | the tokens of the user's options in dict order, or the first one's error, which is always a non-iterable append value; its order and errors are stated by `UserTokensConcat` and `UserTokensErrors` |
| LaunchArgs.UserPart | tuning/utils/config_utils.py:105-108 | a falsy launch configuration gives no user tokens; a truthy one that is not a dict fails with "not a mapping"; a dict gives the tokens of its options |
| LaunchArgs.ConfigFilePath | tuning/utils/config_utils.py:124-126 | the config path is the user's `config_file` when truthy, else the environment's FSDP_DEFAULTS_FILE_PATH when set, else "/app/accelerate_fsdp_defaults.yaml" |
| LaunchArgs.TopologyTokens | tuning/utils/config_utils.py:122-141 | without `multi_gpu`: exactly `--num_processes 1`; with it: `--config_file <path>` first when the path exists, `--num_processes <gpu count>` last when the user gave no truthy count, and nothing else |
| LaunchArgs.UserTokensConcat | tuning/utils/config_utils.py:108-120 | options are emitted in dict order: the tokens of two runs of options are the two token lists joined, and the error is the first one raised |
| LaunchArgs.UserTokensErrors | tuning/utils/config_utils.py:108-111 | the user's options succeed exactly when each one does; a failure names an append option whose value is not iterable |
| LaunchArgs.UserArgs | tuning/utils/config_utils.py:106-120 | the loop over the user's options yields `UserTokens` of those options |
| LaunchArgs.OptionArgs | tuning/utils/config_utils.py:109-120 | the branch taken for one option, including the inner loop over an append option's elements, yields `KeyTokens` of its kind, key and value |
| LaunchArgs.ProcessAccelerateLaunchArgs | tuning/utils/config_utils.py:96-144 | the token list built step by step equals `LaunchTokens` of the job configuration and environment, error cases included |
| LaunchArgs.LaunchTokensFailure | tuning/utils/config_utils.py:105-124 | the list fails with "not a mapping" exactly when the launch configuration is not a dict and is either truthy or read under `multi_gpu`; any other failure names a non-iterable append option |
| LaunchArgs.LaunchTokens | tuning/utils/config_utils.py:104-144 | the whole list fails exactly when the user's options fail, or under `multi_gpu` the launch configuration is not a dict; every successful list ends with "/app/launch_training.py" |
| LaunchArgs.SingleProcessLaunch | tuning/utils/config_utils.py:135-144 | without `multi_gpu` the list is the user's tokens, then `--num_processes 1`, then the script; the process count read back is 1 whatever the user passed |
| LaunchArgs.MultiGpuLaunch | tuning/utils/config_utils.py:122-134 | with `multi_gpu` the list succeeds exactly when the launch configuration is a dict and its options succeed; it holds the user's tokens, then `--config_file <path>` if the path exists, then the GPU count unless the user gave a truthy `num_processes`, then the script |
| LaunchArgs.MultiGpuProcessCount | tuning/utils/config_utils.py:131-134 | with `multi_gpu` and no truthy user `num_processes`, the process count read back is the GPU count |
| LaunchArgs.MultiGpuConfigFile | tuning/utils/config_utils.py:122-129 | with `multi_gpu` and an existing path, the config file read back is the user's `config_file` if truthy, else the environment's default, else "/app/accelerate_fsdp_defaults.yaml" |
| LaunchArgs.UserConfigFileSingleProcess | tests/utils/test_config_type_utils.py:54-60 | a user config file without `multi_gpu` is read back as that file with 1 process |
| LaunchArgs.UserConfigFileMultiGpu | tests/utils/test_config_type_utils.py:62-70 | a user config file with `multi_gpu` is read back as that file with the GPU count as the process count |
| LaunchArgs.UserProcessCountMultiGpu | tests/utils/test_config_type_utils.py:72-83 | a user config file and process count with `multi_gpu` give exactly the user's tokens, the config file again and the script; both user values are read back |
| Collators.LabelFor | tuning/utils/collators.py:31-38 | a position holding the pad id (when there is one) or the image id gets -100; every other position keeps its input id |
| Collators.Clone | tuning/utils/collators.py:31 | the clone is a new tensor with the shape and contents of the input |
| Collators.MaskEqual | tuning/utils/collators.py:38 | after `labels[labels == id] = -100` every position that held `id` holds -100, and every other position is unchanged |
| Collators.VisionDataCollator.constructor | tuning/utils/collators.py:17-20 | the collator keeps the pad id, the image id and the two field names it was given |
| Collators.VisionDataCollator.Call | tuning/utils/collators.py:22-41 | a batch without `input_ids` raises and is unchanged; otherwise the same batch comes back. It gains a fresh `labels` tensor shaped like `input_ids`, holding the masked label of each position. Every other entry is unchanged, and `input_ids` itself is unchanged |

## Left out

- The launcher's parser and `parser.parse_args` are external. The action-kind map is part of the `Environment` parameter, and an action class other than append, store, store-true and store-false counts as "other". The parsed result is not modelled; the "last occurrence wins" reading of a repeated option (`LastValue`, `LastInt`) stands in for it in the test lemmas.
- `os.getenv("FSDP_DEFAULTS_FILE_PATH")`, `os.path.exists` and `torch.cuda.device_count()` are I/O. They become fields of `Environment`: an optional string, a set of existing paths and a natural number.
- Logging calls and the printed warning for a missing `Class.param` cause no state change. The warning is the `WarnMissing` effect, which changes nothing.
- `get_hf_peft_config` builds objects of the external PEFT library and is not part of this model.
- The default values of the two tuning-configuration dataclasses are not shown in the repository. They are parameters of `CreateTuningConfig`.
- `hasattr` also sees methods and class attributes of a configuration object. The model only sees the fields in its map.
- `update_config` modifies only existing attributes, as the code does. A tuple and a list are not told apart: both are a `Group`.
- An exception raised by `update_config` (the two-way split of a name with two or more dots) is not modelled as an exception. It is a false success flag, and the arguments that came before it remain applied.
- The tokenizer's `pad_token_id` and `convert_tokens_to_ids(processor.image_token)` are external calls. The collator holds their results as constants. Tensors are two-dimensional integer arrays: dtype, device and shapes of other ranks are not modelled.
- Floating-point values in a job configuration are not modelled.
- Str: `repr` of a string inside a list or dict always quotes with `'` and escapes nothing. Python picks `"` when the string holds a `'` and no `"`, and escapes backslashes and control characters.
- The launcher parses an integer option with `int`. The model's parse (`ParseInt`) accepts only an optionally signed run of decimal digits. Python's `int` also accepts surrounding whitespace, `+` and `_` separators.
- ConfigFilePath: uses `str()` of a truthy user `config_file` of any type. The code passes the raw value to `os.path.exists` and into the argument list, so a non-string value is not a string token there (tuning/utils/config_utils.py:124-129).
- A Python dict, and so `**kwargs`, has distinct keys. `VDict` and a keyword-argument sequence can hold one key twice, and the lemmas hold for such values as well. For such a value `Get` returns the first entry with the key, while `UserTokens` emits tokens for every entry.
- build/accelerate_launch.py and build/launch_training.py do environment, file and library I/O and are not part of this model.
- The first launch-argument test (tests/utils/test_config_type_utils.py:40-45) reads a job configuration file that is not part of this model.
- UserConfigFileSingleProcess, UserConfigFileMultiGpu, UserProcessCountMultiGpu: these require the config path not to start with '-'. A path that looks like an option would be read differently by the parser. These lemmas also require that `config_file` and `num_processes` are store options of the launcher.
- UserProcessCountMultiGpu: covers a non-zero process count, as in the test. A count of 0 is falsy, so the GPU count is appended after it.
- MultiGpuConfigFile: requires that the chosen path is not the literal "--config_file".
