# Membership Discount Manager, modelled in Dafny

Membership Discount Manager is a WordPress/WooCommerce plugin that gives
members a loyalty tier (None, Bronze, Silver, Gold or Platinum) from what they
have spent, and turns the tier into a percentage discount at checkout. Several
generations of the tier logic live side by side in the plugin's source:

- the scheduled recalculation (`class-mdm-cron.php`). It walks the spend
  aggregate page by page, writes both spend figures, skips users with a
  manual override, and stores the tier of a fixed yearly-or-lifetime cascade
  only when it changed;
- the admin sync (`class-mdm-admin.php`). It syncs one user, all users, or
  one AJAX batch. The batch is guarded by a nonce, a capability check and an
  "in progress" flag. The admin screen drives it by sending back `processed`
  as the next offset;
- the older discount manager (`class-mdm-discount-manager.php`). It has a
  fixed table, an ascending scan that stops at the first unmet threshold,
  and a manual tier setter;
- the second admin class (`includes/Admin.php`). It has its own sanitizer,
  a last-satisfied scan and a sync. The plugin as shipped never runs it.
  Its class name, `MembershipDiscountManager\Admin`, is also the name
  `class-mdm-admin.php` declares. The bootstrap requires that file
  (`membership-discount-manager.php:33`) before any `new Admin()`, so the
  autoloader is never asked for the name. `MdmPlugin.AdminClassFile` shows
  that the autoloader would map it to `includes/Admin.php`. `MdmProfileAdmin`
  models this code as written;
- the "next tier" figure of the shortcodes (`class-mdm-shortcodes.php`);
- the checkout handler (`class-mdm-discount-handler.php`). It does the cached
  discount lookup, the eligible subtotal, the negative fee added once per
  pass behind a re-entrancy flag, and coupon blocking, validation and
  removal. It also removes its own notices;
- the per-product opt-in flag (`class-mdm-product.php`), the default-tier
  initializer (`class-mdm-activator.php`), and the class autoloader and
  dependency tests (`membership-discount-manager.php`).

The model has one Dafny module per PHP file, except `class-mdm-admin.php`.
That file is split over two modules: `MdmAdmin`, for the sanitizers, the
stable sort and the tier scan, and `MdmAdminSync`, for the sync and AJAX
handlers. They sit over shared modules:

- `Php`: Option/Result, ASCII case mapping, `strpos`, LIMIT/OFFSET pages;
- `Store`: the user-meta store, as a map from user id to a record with one
  field per meta key the plugin uses;
- `TierSettings`: the `mdm_tier_settings` option, as an ordered PHP array;
- `CronBatch`: the page/batch engine of the scheduled recalculation.

The source's own shapes are kept:

- Objects whose state the PHP code changes are classes: `Cron`,
  `DiscountHandler`, `DiscountManager`, `Product`, `Admin`, `ProfileAdmin`
  and `Activator`. Each method's contract ties its result and new state to
  a specification function of the old state.
- The class methods with loops are in `Cron`, `DiscountHandler`, `Admin`,
  `ProfileAdmin` and `Activator`.
- The PHP loops that change no object state are module-level methods with
  loops:
  - `MdmDiscountManager.DetermineTierFromSpend`, which
    `DiscountManager.CalculateUserTier` calls;
  - `MdmAdmin.SanitizeTierSettings` and `MdmAdminSync.FirstReachedTier`;
  - `MdmProfileAdmin.SanitizeTierSettings` and
    `MdmProfileAdmin.CalculateDiscountTier`;
  - `MdmShortcodes.CurrentTier`.
- `Product.SaveLoyaltyDiscountField` and the two methods of
  `DiscountManager` are straight-line writes, as in the PHP.
- Pure decisions are functions, with lemmas stating what they mean.

Money is `real`. Every clock reading is a `now` parameter.

## Model

| member | source | states |
|---|---|---|
| MdmCron.CalculateTierRank | includes/class-mdm-cron.php:367-384 | The cascade's rank is the larger of the yearly level (thresholds 1000/2500/5000/10000) and the lifetime level (5000/10000/25000/50000). |
| MdmCron.CalculateTierMonotone | includes/class-mdm-cron.php:373-383 | Raising either spend figure never lowers the tier rank. |
| MdmCron.CalculateTierExtremes | includes/class-mdm-cron.php:367-384 | Platinum iff yearly ≥ 10000 or total ≥ 50000; None iff yearly < 1000 and total < 5000. |
| MdmCron.TierNameInjective | includes/class-mdm-cron.php:367-384 | Distinct tiers have distinct labels, so "exactly one of the five" is well defined. |
| MdmCron.CalculateTier | includes/class-mdm-cron.php:367-384 | calculate_tier: the five-way cascade over yearly and lifetime spend, Platinum first. Its meaning is stated by CalculateTierRank, CalculateTierMonotone and CalculateTierExtremes. |
| MdmCron.UpdateTier | includes/class-mdm-cron.php:339-358 | update_user_tier on one profile: the tier is recomputed from the stored spend and written, with the sync stamp, only when it differs. Its meaning is stated by UpdateTierEffect and UpdateTierIdempotent. |
| MdmCron.UpdateTierEffect | includes/class-mdm-cron.php:339-358 | Afterwards the stored tier is the computed one. The write happens iff the stored value differs (strict comparison). Only the tier and the last-sync stamp can change, and the stamp changes only with the tier. |
| MdmCron.UpdateTierIdempotent | includes/class-mdm-cron.php:345-357 | A second call on the result reports no change and writes nothing. |
| MdmCron.Cron.CalculateAndUpdateUserTier | includes/class-mdm-cron.php:339-358 | Returns true iff it wrote. The meta afterwards is the updated profile on a change and is unchanged otherwise. |
| MdmCron.Cron.ProcessUserRow | includes/class-mdm-cron.php:209-254 | One loop body: both spend figures are written; an override of 'yes' gives Skipped, otherwise the tier update runs. |
| MdmCron.ProcessUser | includes/class-mdm-cron.php:209-254 | One body of the page's foreach: both spend figures are written, a user with override 'yes' is skipped, and the others go through the tier update. Its meaning is stated by ProcessUserKeepsOverride and ProcessUserSettles. |
| MdmCron.ProcessUserKeepsOverride | includes/class-mdm-cron.php:222-234 | A user whose override is 'yes' keeps their tier and override, and is only counted as skipped. |
| MdmCron.ProcessUsersIsRunBatch | includes/class-mdm-cron.php:205-254 | The cron's foreach over a page is the batch engine's fold with the cron's per-user step. |
| MdmCron.Cron.ProcessPage | includes/class-mdm-cron.php:205-254 | The page loop leaves the meta and batch counts of the specification fold over that page. |
| MdmCron.Cron.ProcessAllPages | includes/class-mdm-cron.php:177-288 | The while loop yields the sweep's meta, totals and one running statistics entry per batch. |
| MdmCron.Cron.RunAutoCalculation | includes/class-mdm-cron.php:142-331 | A zero count logs the error entry and writes no meta. Otherwise the meta is the sweep's and the log ends with the finished entry. The last entry is never "running". |
| MdmCron.AutoCalculation | includes/class-mdm-cron.php:142-331 | process_auto_calculation: the page loop from offset 0 with the cron's per-user step. Its meaning is stated by AutoCalculationResumable, AutoCalculationFrame, AutoCalculationLogRunning and AutoCalculationIdempotent. |
| MdmCron.AutoCalculationResumable | includes/class-mdm-cron.php:177-288 | For a consistent aggregate and any batch size ≥ 1, the meta and totals are those of one pass over all rows. processed + skipped equals the number of rows. |
| MdmCron.AutoCalculationLogRunning | includes/class-mdm-cron.php:276-284 | Every statistics entry written between batches has is_running = true. |
| MdmCron.AutoCalculationFrame | includes/class-mdm-cron.php:177-288 | A user with no row in the aggregate keeps their meta. |
| MdmCron.AutoCalculationKeepsOverriddenTier | includes/class-mdm-cron.php:222-234 | A user whose override is 'yes' ends the run with the same tier and override. |
| MdmCron.ProcessUserSettles | includes/class-mdm-cron.php:222-254 | Processing a row leaves its user settled, and processing a settled user changes nothing and updates no one. |
| MdmCron.BatchIdempotent | includes/class-mdm-cron.php:205-254 | Re-processing the same distinct users, at any later time, updates nobody and changes nothing. |
| MdmCron.AutoCalculationIdempotent | includes/class-mdm-cron.php:142-331 | A second run with any batch size leaves the meta of the first run and reports zero updates. |
| CronBatch.BatchCountsBalance | includes/class-mdm-cron.php:205-259 | Per batch: processed + skipped = users in the batch, 0 ≤ updated ≤ processed, and the counts are not negative. |
| CronBatch.RunBatch | includes/class-mdm-cron.php:205-259 | The foreach over one page: each row's step in order, with the counts summed. Its meaning is stated by BatchCountsBalance, RunBatchSplit and BatchFrame. |
| CronBatch.RunBatchSplit | includes/class-mdm-cron.php:257-259 | Two consecutive ranges processed one after the other equal the whole range, with the counts added. |
| CronBatch.SweepCovers | includes/class-mdm-cron.php:177-203 | With count = rows and batch size ≥ 1, the sweep from an offset processes exactly the remaining rows once. |
| CronBatch.Sweep | includes/class-mdm-cron.php:177-288 | The while loop: fetch the page at the offset, run it, log a running entry, add the batch size to the offset; stop at the count or on an empty page. Its meaning is stated by SweepNext, FinishDone, SweepCovers and RunIndependentOfBatchSize. |
| CronBatch.RunIndependentOfBatchSize | includes/class-mdm-cron.php:177-288 | Two batch sizes ≥ 1 give the same records and totals. |
| CronBatch.SweepLogRunning | includes/class-mdm-cron.php:276-284 | Entries logged inside the loop are all running. |
| CronBatch.SweepNext | includes/class-mdm-cron.php:195-287 | One loop round: a non-empty page is processed, logged, and the offset grows by the batch size. |
| CronBatch.FinishDone | includes/class-mdm-cron.php:177-203 | The loop stops when the offset reaches the count or a page is empty. |
| CronBatch.BatchPreserves | includes/class-mdm-cron.php:209-254 | A property every step keeps holds after a batch. |
| CronBatch.SweepPreserves | includes/class-mdm-cron.php:177-288 | The same property holds after a whole run. |
| CronBatch.BatchFrame | includes/class-mdm-cron.php:209-254 | Users outside the batch keep their records. |
| CronBatch.BatchSettles | includes/class-mdm-cron.php:209-254 | With distinct users, every processed user is left in the step's settled state. |
| CronBatch.BatchStable | includes/class-mdm-cron.php:209-254 | A batch whose users are all fixed points of the step changes nothing and updates nobody. |
| MdmDiscountHandler.TierDiscountNone | includes/class-mdm-discount-handler.php:214-239 | No discount iff the tier meta is falsy, exactly 'None', or not a table key after lower-casing. |
| MdmDiscountHandler.TierDiscountKnown | includes/class-mdm-discount-handler.php:214-239 | Otherwise the label is ucfirst(lower-cased tier) and the percentage is the table's. |
| MdmDiscountHandler.TierTableEntries | includes/class-mdm-discount-handler.php:221-239 | The table: None 0, Bronze 5, Silver 10, Gold 15, Platinum 20. |
| MdmDiscountHandler.TierDiscount | includes/class-mdm-discount-handler.php:214-239 | The discount a stored tier value gives: a label and a percentage, or none. Its meaning is stated by TierDiscountNone, TierDiscountKnown and TierDiscountCaseInsensitive. |
| MdmDiscountHandler.LowercaseNoneIsZeroDiscount | includes/class-mdm-discount-handler.php:214-239 | A stored 'none', which both syncs write for a user below every threshold, is a truthy 0% discount: it blocks coupons on a loyalty cart, and a pass adds a fee of 0. |
| MdmDiscountHandler.TierDiscountCaseInsensitive | includes/class-mdm-discount-handler.php:229-239 | Two spellings that differ only in case give the same discount. |
| MdmDiscountHandler.LookupDiscount | includes/class-mdm-discount-handler.php:200-246 | The result is memoised for the user, and earlier memo entries are kept. |
| MdmDiscountHandler.LookupDiscountCached | includes/class-mdm-discount-handler.php:202-212 | Once looked up, a user's discount comes back unchanged whatever the meta says later, and nothing changes. |
| MdmDiscountHandler.LookupDiscountFresh | includes/class-mdm-discount-handler.php:214-243 | With nothing cached, the discount is the one the stored tier gives. |
| MdmDiscountHandler.DiscountHandler.GetUserDiscount | includes/class-mdm-discount-handler.php:200-246 | Returns the lookup's result and leaves its caches. |
| MdmDiscountHandler.UserDiscount | includes/class-mdm-discount-handler.php:200-246 | get_user_discount for the logged-in user, through the caches. Its meaning is stated by LookupDiscount, LookupDiscountCached and LookupDiscountFresh. |
| MdmDiscountHandler.EligibleSubtotal | includes/class-mdm-discount-handler.php:517-547 | The loop that sums the enabled lines. Its meaning is stated by EligibleSubtotalAppend, IneligibleLineContributesNothing and PositiveSubtotalHasLoyaltyProduct. |
| MdmDiscountHandler.EligibleSubtotalAppend | includes/class-mdm-discount-handler.php:517-547 | The subtotal is additive over runs of cart lines. |
| MdmDiscountHandler.IneligibleLineContributesNothing | includes/class-mdm-discount-handler.php:520-528 | A line without a product, or whose product is not enabled, adds 0. |
| MdmDiscountHandler.PositiveSubtotalHasLoyaltyProduct | includes/class-mdm-discount-handler.php:517-547 | A positive subtotal implies an enabled product is in the cart. |
| MdmDiscountHandler.DiscountHandler.ComputeEligibleSubtotal | includes/class-mdm-discount-handler.php:517-547 | The loop's sum is the eligible subtotal of all lines. |
| MdmDiscountHandler.DiscountHandler.FindLoyaltyProduct | includes/class-mdm-discount-handler.php:433-446 | The search's answer is "some line is an enabled product". |
| MdmDiscountHandler.ShouldBlockMeaning | includes/class-mdm-discount-handler.php:417-449 | Block iff a cart exists, a user is logged in, the user has a discount and some line is enabled. Only the caches can change. |
| MdmDiscountHandler.ShouldBlock | includes/class-mdm-discount-handler.php:417-449 | should_block_coupons. Its meaning is stated by ShouldBlockMeaning. |
| MdmDiscountHandler.DiscountHandler.ShouldBlockCoupons | includes/class-mdm-discount-handler.php:417-449 | The method's answer and state are the decision's. |
| MdmDiscountHandler.ValidateCouponMeaning | includes/class-mdm-discount-handler.php:311-330 | An invalid coupon stays invalid with nothing changed. A valid one is refused iff coupons are blocked. Coupons and fees are untouched. |
| MdmDiscountHandler.ValidateCoupon | includes/class-mdm-discount-handler.php:311-330 | validate_coupon_for_loyalty. Its meaning is stated by ValidateCouponMeaning. |
| MdmDiscountHandler.DiscountHandler.ValidateCouponForLoyalty | includes/class-mdm-discount-handler.php:311-330 | The method's answer and state are the decision's. |
| MdmDiscountHandler.CheckAndRemoveMeaning | includes/class-mdm-discount-handler.php:454-486 | Coupons are cleared, with exactly one notice appended, iff the user is logged in, has a discount, the cart has an enabled product and a coupon is applied. Otherwise coupons and notices stay. |
| MdmDiscountHandler.CheckAndRemove | includes/class-mdm-discount-handler.php:454-486 | check_and_remove_coupons. Its meaning is stated by CheckAndRemoveMeaning. |
| MdmDiscountHandler.DiscountHandler.CheckAndRemoveCoupons | includes/class-mdm-discount-handler.php:454-486 | The state afterwards is the specification's. |
| MdmDiscountHandler.ClearNoticesExact | includes/class-mdm-discount-handler.php:588-611 | What remains is exactly the notices that are not the plugin's own in the error, notice and success lists. Clearing twice is clearing once. |
| MdmDiscountHandler.ClearNotices | includes/class-mdm-discount-handler.php:588-611 | The filter over the queued notices. Its meaning is stated by ClearNoticesExact and ClearNoticesAppend. |
| MdmDiscountHandler.ClearNoticesAppend | includes/class-mdm-discount-handler.php:593-605 | Clearing works notice by notice, keeping order. |
| MdmDiscountHandler.DiscountHandler.ClearDiscountNotices | includes/class-mdm-discount-handler.php:588-611 | The in-place loop leaves the cleared list. |
| MdmDiscountHandler.OwnMessagesAreCleared | includes/class-mdm-discount-handler.php:597-600 | Every notice the handler itself queues is one it clears later. |
| MdmDiscountHandler.TierLabelMentions | includes/class-mdm-discount-handler.php:568-573 | The fee label mentions 'Loyalty' and 'Discount'. |
| MdmDiscountHandler.RemovedMessageMentions | includes/class-mdm-discount-handler.php:477-484 | The coupon-removed notice mentions 'Loyalty' and 'Discount'. |
| MdmDiscountHandler.BlockedMessageMentions | includes/class-mdm-discount-handler.php:320-325 | The coupon-blocked error mentions 'Loyalty' and 'Discount'. |
| MdmDiscountHandler.FeePassMeaning | includes/class-mdm-discount-handler.php:506-576 | The fee −subtotal × pct / 100 is added and all coupons removed iff the user is logged in, has a discount and the subtotal is positive. Otherwise fees and coupons stay. |
| MdmDiscountHandler.FeePass | includes/class-mdm-discount-handler.php:506-576 | The try block of add_discount_fee. Its meaning is stated by FeePassMeaning. |
| MdmDiscountHandler.AddDiscountFeeMeaning | includes/class-mdm-discount-handler.php:493-583 | At most one fee is added, exactly the loyalty fee. Nothing is added while the flag is set or the cart is empty. The flag ends as it began. No coupon is left when the fee is added. |
| MdmDiscountHandler.AddDiscountFee | includes/class-mdm-discount-handler.php:493-583 | add_discount_fee with its re-entrancy flag. Its meaning is stated by AddDiscountFeeMeaning. |
| MdmDiscountHandler.DiscountFee | includes/class-mdm-discount-handler.php:517-576 | The fee a pass adds: the tier label and −subtotal × percentage / 100, or none. Its meaning is stated by AddDiscountFeeMeaning and SilverExample. |
| MdmDiscountHandler.DiscountHandler.AddDiscountFeeToCart | includes/class-mdm-discount-handler.php:493-583 | The state afterwards is the specification's. |
| MdmDiscountHandler.DiscountHandler.FeePassOnCart | includes/class-mdm-discount-handler.php:506-576 | The state afterwards is the specification's. |
| MdmDiscountHandler.SilverExample | includes/class-mdm-discount-handler.php:517-576 | A silver member whose eligible lines come to 200 gets the fee "Loyalty Silver Tier Discount (10%)" of −20. |
| MdmAdmin.ClampSetting | includes/class-mdm-admin.php:185-188 | The result is in range. It equals the input iff the input was in range, and an in-range part is kept. |
| MdmAdmin.Sanitized | includes/class-mdm-admin.php:179-193 | A key is kept iff it is a known tier present in the input, always in range. |
| MdmAdmin.SanitizeTierSettings | includes/class-mdm-admin.php:179-193 | Every lookup of the output is the sanitized input. The keys are known tiers, in tier order. |
| MdmAdmin.SanitizeIdempotent | includes/class-mdm-admin.php:179-193 | Sanitizing the output again changes no lookup. |
| MdmAdmin.SanitizeBatchSize | includes/class-mdm-admin.php:201-204 | Always in [1, 100]; the result is abs(n) iff 1 ≤ abs(n) ≤ 100; 0 gives 1; abs(n) above 100 gives 100. |
| MdmAdmin.SortDesc | includes/class-mdm-admin.php:563-566 | The uasort by descending min_spend, as a stable insertion sort. Its meaning is stated by SortDescSorted. |
| MdmAdmin.SortDescSorted | includes/class-mdm-admin.php:563-566 | The sort yields descending minimum spend and a permutation of the entries. |
| MdmAdmin.FirstReached | includes/class-mdm-admin.php:587-596 | A found entry is in the table and reached; none found means none is reached. |
| MdmAdmin.FirstReachedIsHighest | includes/class-mdm-admin.php:587-596 | On a descending table, the first entry reached has the largest reached threshold. |
| MdmAdmin.AssignedTierMeaning | includes/class-mdm-admin.php:563-596 | The assigned tier is 'none' when nothing is reached. Otherwise it is the ucfirst key of an entry with the highest reached threshold. |
| MdmAdmin.AssignedTier | includes/class-mdm-admin.php:563-596 | The tier sync_user_spending_data assigns. Its meaning is stated by AssignedTierMeaning. |
| MdmAdminSync.FirstReachedTier | includes/class-mdm-admin.php:587-596 | The break-loop's answer is the first reached entry's ucfirst key, or 'none'. |
| MdmAdminSync.SyncUser | includes/class-mdm-admin.php:537-626 | An error iff the user has no membership. |
| MdmAdminSync.SyncUserWrites | includes/class-mdm-admin.php:550-617 | No membership: no writes. Otherwise it writes both sums (null read as 0), the assigned tier and the sync time, touches no other user, and returns the same figures. |
| MdmAdminSync.Admin.SyncUserSpendingData | includes/class-mdm-admin.php:537-626 | The result and meta are the specification's. The flag and the last-sync option are untouched. |
| MdmAdminSync.NonMembers | includes/class-mdm-admin.php:645-661 | At most the number of users; zero iff every user is a member. |
| MdmAdminSync.SyncUsersCounts | includes/class-mdm-admin.php:645-661 | success + failed = number of users, and the failures are exactly the non-members. |
| MdmAdminSync.SyncUsersAppend | includes/class-mdm-admin.php:645-661 | Syncing two lists in turn is syncing their concatenation, with the counts added. |
| MdmAdminSync.SyncUsers | includes/class-mdm-admin.php:645-661 | The foreach of sync_all_users over the member list. Its meaning is stated by NonMembers, SyncUsersCounts and SyncUsersAppend. |
| MdmAdminSync.Admin.SyncEach | includes/class-mdm-admin.php:645-661 | The loop's meta and counts are the specification fold's. |
| MdmAdminSync.Admin.SyncAllUsers | includes/class-mdm-admin.php:633-674 | total = processed = success + failed = number of users, and the sync time is recorded. |
| MdmAdminSync.AjaxSyncGuards | includes/class-mdm-admin.php:708-729 | A bad nonce dies. No capability gives the permission error. The in-progress error comes iff the flag is set and the offset is 0. A turned-away request changes nothing. |
| MdmAdminSync.AjaxSyncBatch | includes/class-mdm-admin.php:717-794 | The page at the offset is synced, with processed = offset + count and success + failed = count. The flag is taken only at offset 0 and dropped once processed ≥ total. A batch size of 0 short of the total fails fatally. The offset advances iff the page is non-empty. |
| MdmAdminSync.AjaxSyncDriven | includes/class-mdm-admin.php:708-781 | The exact reply and state for one driver request. |
| MdmAdminSync.AjaxSync | includes/class-mdm-admin.php:708-795 | ajax_sync_membership_fields. Its meaning is stated by AjaxSyncGuards, AjaxSyncBatch and AjaxSyncDriven. |
| MdmAdminSync.DrivenPrefix | assets/js/admin.js:183-201 | Sending processed back as the next offset extends the synced prefix by the page, and stays within the list. |
| MdmAdminSync.Admin.AjaxSyncMembershipFields | includes/class-mdm-admin.php:708-795 | The reply and state are the specification's. |
| MdmAdminSync.Admin.DriveOnce | assets/js/admin.js:159-201 | One request's reply, meta, flag and last-sync option. |
| MdmAdminSync.Admin.RunBatchedSync | assets/js/admin.js:159-201 | Started without the flag, with batch size ≥ 1, it ends on success with processed = total. Every member is synced once, in order. The flag is dropped and the sync time recorded. |
| MdmDiscountManager.FindTier | includes/class-mdm-discount-manager.php:11-28 | A found entry has the key and is in the table; otherwise no entry has it. |
| MdmDiscountManager.GetUserDiscount | includes/class-mdm-discount-manager.php:36-39 | A value iff the stored tier is a table key, and then it is one of 5/10/15/20. |
| MdmDiscountManager.TierForSpend | includes/class-mdm-discount-manager.php:106-118 | Always a table key: bronze below 1000, silver up to 5000, gold up to 10000, platinum from 10000 on. |
| MdmDiscountManager.TierForSpendMonotone | includes/class-mdm-discount-manager.php:106-118 | More spend never gives a lower tier. |
| MdmDiscountManager.TierForSpendIsHighestReached | includes/class-mdm-discount-manager.php:106-118 | The tier's threshold is met, and every entry with a met threshold ranks no higher. |
| MdmDiscountManager.DetermineTierFromSpend | includes/class-mdm-discount-manager.php:106-118 | The ascending scan with break returns the tier for the spend. |
| MdmDiscountManager.RecalculateTier | includes/class-mdm-discount-manager.php:47-60 | A truthy override keeps everything. Otherwise the written tier is the one the spend reaches, the total spend is written, the user's other fields stay, and no other user changes. |
| MdmDiscountManager.DiscountManager.CalculateUserTier | includes/class-mdm-discount-manager.php:47-60 | Returns false and writes nothing on an override. Otherwise returns the tier and writes it. |
| MdmDiscountManager.RecalculatedDiscount | includes/class-mdm-discount-manager.php:36-60 | After a recalculation the discount is the table's for the spend's tier. |
| MdmDiscountManager.ManualTier | includes/class-mdm-discount-manager.php:128-137 | Succeeds iff the tier is a table key, and never touches another user. |
| MdmDiscountManager.DiscountManager.SetManualTier | includes/class-mdm-discount-manager.php:128-137 | Returns false with no writes for an unknown tier. Otherwise it writes tier and override. |
| MdmDiscountManager.ManualTierRoundTrip | includes/class-mdm-discount-manager.php:36-39 | After a successful set, get_user_discount gives the table's percentage for that tier. |
| MdmDiscountManager.ManualTierOverride | includes/class-mdm-discount-manager.php:49-59 | A tier set with the override on survives every later recalculation. |
| MdmShortcodes.LastReached | includes/class-mdm-shortcodes.php:94-99 | The level is 'none' or a configured tier whose minimum is met, and no later tier in the order is reached. |
| MdmShortcodes.CurrentTier | includes/class-mdm-shortcodes.php:94-99 | The foreach's current tier is the last reached tier of the order. |
| MdmShortcodes.GetNextTierInfo | includes/class-mdm-shortcodes.php:77-132 | The method's result is the specification's. |
| MdmShortcodes.NextTierFor | includes/class-mdm-shortcodes.php:77-132 | get_next_tier_info's result. Its meaning is stated by NextTierNone, NextTierIsUnreachedSuccessor and NextTierIgnoresConfiguredDiscounts. |
| MdmShortcodes.NextTierNone | includes/class-mdm-shortcodes.php:79-123 | No result iff the settings are empty, the current tier is platinum, or the successor is not configured. |
| MdmShortcodes.NextTierIsUnreachedSuccessor | includes/class-mdm-shortcodes.php:104-123 | A result names the immediate successor, with amount_needed = its minimum − spend > 0 and the hard-coded discount. |
| MdmShortcodes.LastReachedMonotone | includes/class-mdm-shortcodes.php:94-99 | More yearly spend never gives a lower current tier. |
| MdmShortcodes.NextTierIgnoresConfiguredDiscounts | includes/class-mdm-shortcodes.php:85-119 | Settings with the same thresholds give the same result, whatever discounts they configure. |
| MdmProduct.CheckboxValue | includes/class-mdm-product.php:57-58 | The stored value is 'yes' or 'no'. |
| MdmProduct.IsDiscountEnabledMeaning | includes/class-mdm-product.php:67-92 | Enabled iff the id is non-zero and the flag is exactly 'yes'; id 0 or an unset flag is disabled. |
| MdmProduct.IsDiscountEnabled | includes/class-mdm-product.php:74-83 | is_discount_enabled. Its meaning is stated by IsDiscountEnabledMeaning and SaveThenEnabled. |
| MdmProduct.SaveThenEnabled | includes/class-mdm-product.php:51-92 | After saving, the flag reads back as "the checkbox was posted", and other products are unaffected. |
| MdmProduct.Product.SaveLoyaltyDiscountField | includes/class-mdm-product.php:51-59 | Writes exactly that product's flag. |
| MdmProfileAdmin.Put | includes/Admin.php:69-75 | PHP array assignment: a present key keeps its place and the length, and a new key is appended at the end. |
| MdmProfileAdmin.PutGet | includes/Admin.php:69-75 | After the assignment the key reads back the value, and every other key reads as before. |
| MdmProfileAdmin.SanitizeTierSettings | includes/Admin.php:66-77 | The output has exactly the input's keys, once each. A well-formed input comes back unchanged (no clamping). |
| MdmProfileAdmin.PutKeys | includes/Admin.php:69-75 | An assignment adds its key and keeps the keys distinct. |
| MdmProfileAdmin.LastMet | includes/Admin.php:228-239 | The index is that of a met entry (or −1), with no met entry after it. |
| MdmProfileAdmin.CalculateDiscountTier | includes/Admin.php:228-239 | The loop returns the last met key, or 'none'. |
| MdmProfileAdmin.LastMetMonotone | includes/Admin.php:228-239 | More spend never moves the result to an earlier entry. |
| MdmProfileAdmin.DiscountTierIsHighestMet | includes/Admin.php:228-239 | On an ascending table the result has the highest met threshold. |
| MdmProfileAdmin.DiscountTierIsKey | includes/Admin.php:228-239 | The result is 'none' or a configured key. |
| MdmProfileAdmin.DiscountTierFor | includes/Admin.php:228-239 | calculate_discount_tier. Its meaning is stated by CalculateDiscountTier, LastMetMonotone, DiscountTierIsHighestMet and DiscountTierIsKey. |
| MdmProfileAdmin.SyncUser | includes/Admin.php:183-223 | An error iff the user has no membership. |
| MdmProfileAdmin.SyncUserWrites | includes/Admin.php:187-222 | No writes on the error. Otherwise both sums (null read as 0) and the tier are written and returned, and no one else is touched. |
| MdmProfileAdmin.ProfileAdmin.SyncUserSpendingData | includes/Admin.php:183-223 | The result and meta are the specification's. |
| MdmProfileAdmin.SyncUsersCounts | includes/Admin.php:150-177 | success + failed = number of users, and the failures are exactly the non-members. |
| MdmProfileAdmin.SyncUsers | includes/Admin.php:150-177 | The foreach of sync_all_users. Its meaning is stated by SyncUsersCounts. |
| MdmProfileAdmin.ProfileAdmin.SyncAllUsers | includes/Admin.php:147-178 | total = processed = success + failed = number of users, and the meta is the fold's. |
| MdmActivator.InitMemberEffect | includes/class-mdm-activator.php:65-75 | A member with a tier is left as is. A member without one gets the three defaults. Nobody else changes. |
| MdmActivator.InitMembersEffect | includes/class-mdm-activator.php:65-75 | After the run, a listed member without a tier has bronze / '0' / '0' and every other key as before. Everyone else is unchanged. |
| MdmActivator.InitMembersTiered | includes/class-mdm-activator.php:68-74 | Afterwards every listed member has a truthy tier. |
| MdmActivator.InitMembersNoop | includes/class-mdm-activator.php:68-70 | Members who all have a tier are left unchanged. |
| MdmActivator.InitMembers | includes/class-mdm-activator.php:65-75 | The foreach over the members. Its meaning is stated by InitMembersEffect, InitMembersTiered and InitMembersNoop. |
| MdmActivator.AfterInitialize | includes/class-mdm-activator.php:58-77 | initialize_member_tiers, a no-op without the member function. Its meaning is stated by InitializeIdempotent. |
| MdmActivator.InitializeIdempotent | includes/class-mdm-activator.php:58-77 | Running the initializer twice is running it once. |
| MdmActivator.Activator.InitializeMemberTiers | includes/class-mdm-activator.php:58-77 | The loop leaves the specification's meta, unchanged when the member query is unavailable. |
| MdmPlugin.SlashPath | membership-discount-manager.php:157-158 | Backslashes become slashes, position by position, and nothing else changes. |
| MdmPlugin.SlashPathRoundTrip | membership-discount-manager.php:157-158 | For a name without '/', the replacement is undone by the reverse one and leaves no backslash. |
| MdmPlugin.Autoload | membership-discount-manager.php:148-163 | Nothing outside the prefix. A file is required only if it exists, and then it is the mapped file. |
| MdmPlugin.ClassFileShape | membership-discount-manager.php:157-158 | The path is the includes directory + the relative name with separators replaced + '.php'. |
| MdmPlugin.ClassFileInjective | membership-discount-manager.php:148-158 | Distinct classes map to distinct files. |
| MdmPlugin.AdminClassFile | membership-discount-manager.php:148-158 | The autoloader maps `MembershipDiscountManager\Admin` to `includes/Admin.php`, the file whose class name `class-mdm-admin.php` already declares. |
| MdmPlugin.ClassFile | membership-discount-manager.php:148-158 | The file the autoloader maps a class to. Its meaning is stated by ClassFileShape and ClassFileInjective. |
| MdmPlugin.IsWooCommerceActive | membership-discount-manager.php:39-41 | True iff the WooCommerce plugin path is in the active list. |
| MdmPlugin.IsMembershipsActive | membership-discount-manager.php:46-48 | True iff the Memberships plugin path is in the active list. |
| MdmPlugin.DependencyTestsIndependent | membership-discount-manager.php:39-48 | Activating one dependency never satisfies the other test. |

## Left out

- SQL. The aggregation queries are given as input sequences: the cron's spend aggregate, the admin's spend map and member lists, and the discount manager's spend argument. `ROUND(..., 2)` and `DATE_SUB` are not modelled, and no order is assumed beyond the one given.
- PHP versions. The plugin header (`membership-discount-manager.php:12`) asks for PHP 7.4, but the model follows PHP 8.0 and later. There are two differences on 7.4:
  - the division at `class-mdm-admin.php:775` warns instead of throwing (see the AjaxSyncBatch line);
  - `uasort` is not guaranteed stable, so `SortDesc`'s tie order is not promised. `AssignedTierMeaning` holds for any tie order.
- Floating point. Money is exact `real`. `round(progress, 2)` and `round(execution_time, 2)` are not modelled.
- Tax. `wc_get_price_excluding_tax` and `wc_get_price_including_tax` are modelled as price × quantity. The `mdm_use_net_total` option and tax rules are not modelled.
- Numeric strings. `floatval` of a stored string is 0 in the model. Spend figures written from queries are numbers.
- MdmAdmin.SortDescSorted: `uasort` is modelled as a stable descending sort. The comparator's float difference is truncated to int by PHP, so an order between thresholds less than 1 apart is not modelled.
- Clocks. `current_time`, `wp_date`, `time` and `microtime` become one `now` string per call, and the execution time is left out. When the source calls `current_time` twice in one sync, the model writes the same `now` both times.
- Transient TTLs and expiry. The in-progress flag is a boolean. The user-discount transient is a map that never expires.
- Logging (`class-mdm-logger.php`), debug helpers, admin notices rendering, list pages, templates, shortcode HTML and localisation. These are I/O or UI.
- Hook, cron and menu registration. This covers `Setup.php`, `class-mdm-setup.php`, `class-mdm-core.php`, `class-mdm-deactivator.php`, `schedule_events`, `add_cron_interval`, and the `handle_sync_all` / `handle_sync_user` / `sync_order_user` wrappers in `Admin.php`. These are thin glue over WordPress.
- `apply_filters` is the identity. `wp_send_json_*` and `wp_die` are the AJAX result values, and the nonce check is a boolean.
- Concurrency. There is one sequential caller; no two requests interleave.
- Exceptions thrown by WordPress or WooCommerce calls. The cron's catch is reached only on the zero count. The AJAX inner catch at `class-mdm-admin.php:783-787` has no throwing call in the model, so it is unreachable there. The outer catch covers the permission and in-progress errors.
- MdmAdminSync.AjaxSyncBatch: on PHP 8, a batch size of 0 short of the total is a fatal `DivisionByZeroError` at `class-mdm-admin.php:775`. PHP's `Exception` catch does not catch it, so the flag stays set. The model returns `Fatal` and stops there. On PHP 7.4 the division is only a warning, and the handler then replies `wp_send_json_success($stats)` with the flag still set. The model does not capture that reply. The client sends `|| 20`, so it never sends 0.
- `class-mdm-cron.php:240` calls `calculate_and_update_user_tier` on a class that does not define it. The model uses the Cron class's own method at lines 339-358.
- `update_all_member_tiers` and `calculate_user_total_spend` (`class-mdm-discount-manager.php:65-98`) are SQL and a loop over the query results. The spend is a parameter of `CalculateUserTier`.
- The `activate()` dependency checks and `wp_die`, and scheduling of the initializer (`class-mdm-activator.php:11-52`).
- `wc_memberships_get_user_membership` / `wc_memberships_get_user_memberships` are modelled as membership in a set of user ids. `set_profile_field` on the membership (`Admin.php:211-216`) writes the user-meta key of the same profile field. A missing `function_exists` is the `membershipsAvailable` flag.
- `get_option('mdm_tier_settings')` returning false is `None`. In `Admin.php` this yields 'none'; in `class-mdm-admin.php` it yields the default thresholds.
- MdmProfileAdmin.SanitizeTierSettings: the `floatval` coercion is the identity, because tier values are already numbers in the model.
- MdmDiscountManager.ManualTier: `$override` is always passed. The default `true` of `set_manual_tier` (`class-mdm-discount-manager.php:128`) is not modelled; the one caller, `class-mdm-admin.php:522`, passes it.
- MdmAdmin.SanitizeBatchSize: the input is already an integer. `absint`'s conversion of a string or a float (truncation by `intval`) is not modelled.
- The tier values of the two allowed override encodings ('yes' in the cron, any truthy value in the discount manager) are modelled as the source has them. They are not reconciled.

The model follows the code on these points:

- on PHP 8, tiers with equal thresholds keep their table order, because the `uasort` at `includes/class-mdm-admin.php:563-566` is stable there and compares only `min_spend`;
- the cron's changed-tier test at `includes/class-mdm-cron.php:351` is the strict `!==` on the stored string, so a tier stored in another case is rewritten;
- a user skipped for an override goes to `continue` at `includes/class-mdm-cron.php:227-234` before `$batch_processed++` at line 253, so skipped users are not counted as processed;
- the cron counts only processed, updated and skipped users, and the AJAX sync's only lock is the boolean `mdm_sync_in_progress` transient at `includes/class-mdm-admin.php:721-729`.
